/** The cross-linked indexes of the transaction queue, and what adding, removing and moving one entry does to them. */
module TxIndexes {
  import opened Collections
  import opened Words

  type Address = nat

  datatype Tx = Tx(sender: Address, nonce: u256, gasPrice: u256, rest: nat, zeroSignature: bool)

  /** Hashing is taken to be injective. */
  datatype Hash = Sha3(tx: Tx)

  /** A stable handle of an entry of `m_current`, the model of an iterator. */
  type Handle = nat

  type Slot = (Address, u256)

  // ---------------------------------------------------------------- maps of maps

  type Nested<V> = map<Address, map<u256, V>>

  predicate Has<V>(m: Nested<V>, a: Address, k: u256) { a in m && k in m[a] }

  function Slots<V>(m: Nested<V>): set<Slot> { set a, k | a in m && k in m[a] :: (a, k) }

  predicate NoneEmpty<V>(m: Nested<V>) { forall a :: a in m ==> m[a] != map[] }

  function Put<V>(m: Nested<V>, a: Address, k: u256, v: V): Nested<V> {
    m[a := (if a in m then m[a] else map[])[k := v]]
  }

  /** Erase an entry, and the whole inner map when that leaves it empty. */
  function Erase<V>(m: Nested<V>, a: Address, k: u256): Nested<V>
    requires a in m
  {
    var inner := m[a] - {k};
    if inner == map[] then m - {a} else m[a := inner]
  }

  lemma PutHas<V>(m: Nested<V>, a: Address, k: u256, v: V, b: Address, l: u256)
    ensures Has(Put(m, a, k, v), b, l) <==> Has(m, b, l) || (b == a && l == k)
    ensures Has(Put(m, a, k, v), b, l) ==> Put(m, a, k, v)[b][l] == if b == a && l == k then v else m[b][l]
  {
  }

  lemma PutSlots<V>(m: Nested<V>, a: Address, k: u256, v: V)
    ensures NoneEmpty(m) ==> NoneEmpty(Put(m, a, k, v))
    ensures Slots(Put(m, a, k, v)) == Slots(m) + {(a, k)}
  {
    var m' := Put(m, a, k, v);
    assert k in m'[a];
    forall s: Slot
      ensures s in Slots(m') <==> s in Slots(m) || s == (a, k)
    {
      assert s == (s.0, s.1);
    }
  }

  lemma EraseHas<V>(m: Nested<V>, a: Address, k: u256, b: Address, l: u256)
    requires Has(m, a, k)
    ensures Has(Erase(m, a, k), b, l) <==> Has(m, b, l) && !(b == a && l == k)
    ensures Has(Erase(m, a, k), b, l) ==> Erase(m, a, k)[b][l] == m[b][l]
  {
    assert b == a && l in m[a] && l != k ==> l in m[a] - {k};
  }

  lemma EraseSlots<V>(m: Nested<V>, a: Address, k: u256)
    requires Has(m, a, k)
    ensures NoneEmpty(m) ==> NoneEmpty(Erase(m, a, k))
    ensures Slots(Erase(m, a, k)) == Slots(m) - {(a, k)} && (a, k) in Slots(m)
  {
    var m' := Erase(m, a, k);
    forall s: Slot
      ensures s in Slots(m') <==> s in Slots(m) && s != (a, k)
    {
      assert s == (s.0, s.1);
      EraseHas(m, a, k, s.0, s.1);
    }
  }

  // ---------------------------------------------------------------- the queue

  datatype Queue = Queue(current: map<Handle, Tx>, byHash: map<Hash, Handle>, byNonce: Nested<Handle>,
                         future: Nested<Tx>, futureSize: nat, known: set<Hash>, dropped: set<Hash>, next: Handle)

  /** An entry of `m_current` is in both indexes. */
  ghost predicate EntryLinked(q: Queue, n: Handle)
    requires n in q.current
  {
    var t := q.current[n];
    && n < q.next
    && Sha3(t) in q.byHash && q.byHash[Sha3(t)] == n
    && Has(q.byNonce, t.sender, t.nonce) && q.byNonce[t.sender][t.nonce] == n
  }

  ghost predicate HashLinked(q: Queue, h: Hash)
    requires h in q.byHash
  {
    q.byHash[h] in q.current && Sha3(q.current[q.byHash[h]]) == h
  }

  ghost predicate SlotLinked(q: Queue, a: Address, k: u256) {
    Has(q.byNonce, a, k) ==>
      var n := q.byNonce[a][k];
      n in q.current && q.current[n].sender == a && q.current[n].nonce == k
  }

  /** A future transaction is filed under its sender and nonce, and that slot is not also current. */
  ghost predicate FutureFiled(q: Queue, a: Address, k: u256) {
    Has(q.future, a, k) ==>
      q.future[a][k].sender == a && q.future[a][k].nonce == k && !Has(q.byNonce, a, k)
  }

  /** The indexes agree. */
  ghost predicate Linked(q: Queue) {
    && (forall n {:trigger EntryLinked(q, n)} :: n in q.current ==> EntryLinked(q, n))
    && (forall h {:trigger HashLinked(q, h)} :: h in q.byHash ==> HashLinked(q, h))
    && (forall a, k {:trigger SlotLinked(q, a, k)} :: SlotLinked(q, a, k))
    && (forall a, k {:trigger FutureFiled(q, a, k)} :: FutureFiled(q, a, k))
  }

  /** No sender has an empty map, and the counter is right. */
  ghost predicate Tallied(q: Queue) {
    NoneEmpty(q.byNonce) && NoneEmpty(q.future) && q.futureSize == |Slots(q.future)|
  }

  // ---------------------------------------------------------------- what is queued

  /** The current transaction of a sender with a nonce. */
  ghost function CurrentAt(q: Queue, a: Address, k: u256): Option<Tx> {
    if Has(q.byNonce, a, k) && q.byNonce[a][k] in q.current then Some(q.current[q.byNonce[a][k]]) else None
  }

  ghost function FutureAt(q: Queue, a: Address, k: u256): Option<Tx> {
    if Has(q.future, a, k) then Some(q.future[a][k]) else None
  }

  /** The transaction in a slot, current or future. */
  ghost function At(q: Queue, a: Address, k: u256): Option<Tx> {
    if CurrentAt(q, a, k).Some? then CurrentAt(q, a, k) else FutureAt(q, a, k)
  }

  // ---------------------------------------------------------------- one entry at a time

  /** Insert into `m_current` and its two indexes. */
  function Insert(q: Queue, t: Tx): Queue {
    q.(current := q.current[q.next := t], byHash := q.byHash[Sha3(t) := q.next],
       byNonce := Put(q.byNonce, t.sender, t.nonce, q.next), next := q.next + 1)
  }

  lemma InsertFresh(q: Queue, t: Tx)
    requires Linked(q) && !Has(q.byNonce, t.sender, t.nonce)
    ensures q.next !in q.current && Sha3(t) !in q.byHash
  {
    assert q.next in q.current ==> EntryLinked(q, q.next);
    assert Sha3(t) in q.byHash ==> HashLinked(q, Sha3(t)) && EntryLinked(q, q.byHash[Sha3(t)]);
  }

  /** A free slot is filled. */
  lemma InsertKeeps(q: Queue, t: Tx)
    requires Linked(q) && !Has(q.byNonce, t.sender, t.nonce) && !Has(q.future, t.sender, t.nonce)
    ensures Linked(Insert(q, t)) && |Insert(q, t).current| == |q.current| + 1
  {
    var q' := Insert(q, t);
    InsertFresh(q, t);
    forall n | n in q'.current
      ensures EntryLinked(q', n)
    {
      assert n != q.next ==> EntryLinked(q, n);
    }
    forall h | h in q'.byHash
      ensures HashLinked(q', h)
    {
      assert h != Sha3(t) ==> HashLinked(q, h);
    }
    forall a, k
      ensures SlotLinked(q', a, k)
    {
      PutHas(q.byNonce, t.sender, t.nonce, q.next, a, k);
      assert SlotLinked(q, a, k);
    }
    forall a, k
      ensures FutureFiled(q', a, k)
    {
      PutHas(q.byNonce, t.sender, t.nonce, q.next, a, k);
      assert FutureFiled(q, a, k);
    }
  }

  lemma InsertAt(q: Queue, t: Tx, a: Address, k: u256)
    requires Linked(q) && !Has(q.byNonce, t.sender, t.nonce)
    ensures CurrentAt(Insert(q, t), a, k) == if a == t.sender && k == t.nonce then Some(t) else CurrentAt(q, a, k)
  {
    PutHas(q.byNonce, t.sender, t.nonce, q.next, a, k);
    InsertFresh(q, t);
    assert SlotLinked(q, a, k);
  }

  lemma InsertAtAll(q: Queue, t: Tx)
    requires Sound(q) && !Has(q.byNonce, t.sender, t.nonce) && !Has(q.future, t.sender, t.nonce)
    ensures Sound(Insert(q, t)) && |Insert(q, t).current| == |q.current| + 1
    ensures forall a, k :: At(Insert(q, t), a, k) == if a == t.sender && k == t.nonce then Some(t) else At(q, a, k)
  {
    InsertKeeps(q, t);
    PutSlots(q.byNonce, t.sender, t.nonce, q.next);
    forall a, k
      ensures At(Insert(q, t), a, k) == if a == t.sender && k == t.nonce then Some(t) else At(q, a, k)
    {
      InsertAt(q, t, a, k);
    }
  }

  ghost predicate Sound(q: Queue) { Linked(q) && Tallied(q) }

  /** Remove an entry of `m_current` from it and from its two indexes. */
  function Remove(q: Queue, n: Handle): Queue
    requires n in q.current && q.current[n].sender in q.byNonce
  {
    var t := q.current[n];
    q.(current := q.current - {n}, byHash := q.byHash - {Sha3(t)}, byNonce := Erase(q.byNonce, t.sender, t.nonce))
  }

  lemma EntryIsLinked(q: Queue, n: Handle)
    requires Linked(q) && n in q.current
    ensures var t := q.current[n];
            Has(q.byNonce, t.sender, t.nonce) && q.byNonce[t.sender][t.nonce] == n && q.byHash.Keys >= {Sha3(t)}
  {
    assert EntryLinked(q, n);
  }

  lemma RemoveKeeps(q: Queue, n: Handle)
    requires Linked(q) && n in q.current && Has(q.byNonce, q.current[n].sender, q.current[n].nonce)
    ensures Linked(Remove(q, n)) && |Remove(q, n).current| == |q.current| - 1
  {
    var t, q' := q.current[n], Remove(q, n);
    EntryIsLinked(q, n);
    forall m | m in q'.current
      ensures EntryLinked(q', m)
    {
      assert EntryLinked(q, m) && EntryLinked(q, n);
      EraseHas(q.byNonce, t.sender, t.nonce, q.current[m].sender, q.current[m].nonce);
    }
    forall h | h in q'.byHash
      ensures HashLinked(q', h)
    {
      assert HashLinked(q, h) && EntryLinked(q, n);
    }
    forall a, k
      ensures SlotLinked(q', a, k)
    {
      EraseHas(q.byNonce, t.sender, t.nonce, a, k);
      assert SlotLinked(q, a, k);
    }
    forall a, k
      ensures FutureFiled(q', a, k)
    {
      EraseHas(q.byNonce, t.sender, t.nonce, a, k);
      assert FutureFiled(q, a, k);
    }
  }

  lemma RemoveAt(q: Queue, n: Handle, a: Address, k: u256)
    requires Linked(q) && n in q.current && Has(q.byNonce, q.current[n].sender, q.current[n].nonce)
    ensures var t := q.current[n];
            CurrentAt(Remove(q, n), a, k) == if a == t.sender && k == t.nonce then None else CurrentAt(q, a, k)
  {
    var t := q.current[n];
    EraseHas(q.byNonce, t.sender, t.nonce, a, k);
    assert SlotLinked(q, a, k) && EntryLinked(q, n);
  }

  lemma RemoveAtAll(q: Queue, n: Handle)
    requires Sound(q) && n in q.current
    ensures var t := q.current[n];
            && Has(q.byNonce, t.sender, t.nonce) && !Has(q.future, t.sender, t.nonce)
            && Sound(Remove(q, n)) && |Remove(q, n).current| == |q.current| - 1
            && At(q, t.sender, t.nonce) == Some(t)
            && forall a, k :: At(Remove(q, n), a, k) == if a == t.sender && k == t.nonce then None else At(q, a, k)
  {
    EntryIsLinked(q, n);
    RemoveKeeps(q, n);
    var t := q.current[n];
    EraseSlots(q.byNonce, t.sender, t.nonce);
    assert FutureFiled(q, t.sender, t.nonce);
    forall a, k
      ensures At(Remove(q, n), a, k) == if a == t.sender && k == t.nonce then None else At(q, a, k)
    {
      RemoveAt(q, n, a, k);
    }
  }

  /** Decrement of an unsigned counter. */
  function Dec(n: nat): nat { if n == 0 then 0xffff_ffff else n - 1 }

  function EraseFuture(q: Queue, a: Address, k: u256): Queue
    requires a in q.future
  {
    q.(future := Erase(q.future, a, k), futureSize := Dec(q.futureSize))
  }

  lemma EraseFutureAt(q: Queue, a: Address, k: u256)
    requires Sound(q) && Has(q.future, a, k)
    ensures Sound(EraseFuture(q, a, k)) && EraseFuture(q, a, k).futureSize == q.futureSize - 1 && 0 < q.futureSize
    ensures forall b, l :: FutureAt(EraseFuture(q, a, k), b, l) == if b == a && l == k then None else FutureAt(q, b, l)
    ensures CurrentAt(q, a, k).None?
    ensures forall b, l :: At(EraseFuture(q, a, k), b, l) == if b == a && l == k then None else At(q, b, l)
  {
    var q' := EraseFuture(q, a, k);
    EraseSlots(q.future, a, k);
    forall n | n in q'.current
      ensures EntryLinked(q', n)
    {
      assert EntryLinked(q, n);
    }
    forall h | h in q'.byHash
      ensures HashLinked(q', h)
    {
      assert HashLinked(q, h);
    }
    forall b, l
      ensures SlotLinked(q', b, l) && FutureFiled(q', b, l)
    {
      EraseHas(q.future, a, k, b, l);
      assert SlotLinked(q, b, l) && FutureFiled(q, b, l);
    }
    forall b, l
      ensures FutureAt(q', b, l) == if b == a && l == k then None else FutureAt(q, b, l)
    {
      EraseHas(q.future, a, k, b, l);
    }
    assert FutureFiled(q, a, k);
  }

  function AddFuture(q: Queue, t: Tx): Queue {
    q.(future := Put(q.future, t.sender, t.nonce, t), futureSize := q.futureSize + 1)
  }

  lemma AddFutureAt(q: Queue, t: Tx)
    requires Sound(q) && !Has(q.byNonce, t.sender, t.nonce) && !Has(q.future, t.sender, t.nonce)
    ensures Sound(AddFuture(q, t))
    ensures forall a, k :: FutureAt(AddFuture(q, t), a, k)
                           == if a == t.sender && k == t.nonce then Some(t) else FutureAt(q, a, k)
    ensures forall a, k :: At(AddFuture(q, t), a, k) == if a == t.sender && k == t.nonce then Some(t) else At(q, a, k)
  {
    var q' := AddFuture(q, t);
    PutSlots(q.future, t.sender, t.nonce, t);
    assert (t.sender, t.nonce) !in Slots(q.future);
    forall n | n in q'.current
      ensures EntryLinked(q', n)
    {
      assert EntryLinked(q, n);
    }
    forall h | h in q'.byHash
      ensures HashLinked(q', h)
    {
      assert HashLinked(q, h);
    }
    forall b, l
      ensures SlotLinked(q', b, l) && FutureFiled(q', b, l)
    {
      PutHas(q.future, t.sender, t.nonce, t, b, l);
      assert SlotLinked(q, b, l) && FutureFiled(q, b, l);
    }
    forall b, l
      ensures FutureAt(q', b, l) == if b == t.sender && l == t.nonce then Some(t) else FutureAt(q, b, l)
    {
      PutHas(q.future, t.sender, t.nonce, t, b, l);
    }
  }

  // ---------------------------------------------------------------- moving between current and future

  /** From future to current. */
  ghost function MoveUp(q: Queue, a: Address, k: u256): Queue
    requires Has(q.future, a, k)
  {
    MoveUpBehind(LAYERS, q, a, k)
  }

  /** The layers only keep proofs about runs of promotions from looking inside each of them. */
  const LAYERS: nat := 2

  ghost function MoveUpBehind(layers: nat, q: Queue, a: Address, k: u256): Queue
    requires Has(q.future, a, k)
    decreases layers
  {
    if 0 < layers then MoveUpBehind(layers - 1, q, a, k) else Insert(EraseFuture(q, a, k), q.future[a][k])
  }

  lemma MoveUpIs(q: Queue, a: Address, k: u256)
    requires Has(q.future, a, k)
    ensures MoveUp(q, a, k) == Insert(EraseFuture(q, a, k), q.future[a][k])
  {
    assert MoveUpBehind(LAYERS, q, a, k) == MoveUpBehind(LAYERS - 1, q, a, k);
    assert MoveUpBehind(LAYERS - 1, q, a, k) == MoveUpBehind(LAYERS - 2, q, a, k);
  }

  lemma MoveUpAt(q: Queue, a: Address, k: u256)
    requires Sound(q) && Has(q.future, a, k)
    ensures Sound(MoveUp(q, a, k)) && MoveUp(q, a, k).futureSize == q.futureSize - 1
    ensures |MoveUp(q, a, k).current| == |q.current| + 1
    ensures MoveUp(q, a, k).known == q.known && MoveUp(q, a, k).dropped == q.dropped
    ensures forall b, l :: At(MoveUp(q, a, k), b, l) == At(q, b, l)
    ensures forall b, l :: FutureAt(MoveUp(q, a, k), b, l) == if b == a && l == k then None else FutureAt(q, b, l)
  {
    var q1, t := EraseFuture(q, a, k), q.future[a][k];
    MoveUpIs(q, a, k);
    EraseFutureAt(q, a, k);
    assert FutureFiled(q, a, k);
    EraseHas(q.future, a, k, a, k);
    InsertAtAll(q1, t);
    assert forall b, l :: FutureAt(MoveUp(q, a, k), b, l) == FutureAt(q1, b, l);
    assert At(q, a, k) == Some(t);
  }

  /** The first nonce from `k` on for which the sender has no future transaction. */
  function RunEnd(q: Queue, a: Address, k: nat): (end: nat)
    ensures k <= end
    ensures end == k || end <= TWO_256
    decreases TWO_256 - k
  {
    if k < TWO_256 && Has(q.future, a, k) then RunEnd(q, a, k + 1) else k
  }

  /** The unbroken run of future transactions from nonce `k` on becomes current. */
  ghost function PromoteRun(q: Queue, a: Address, k: nat): Queue
    decreases TWO_256 - k
  {
    if k < TWO_256 && Has(q.future, a, k) then PromoteRun(MoveUp(q, a, k), a, k + 1) else q
  }

  lemma {:induction false} RunEndAfter(q: Queue, q': Queue, a: Address, k: nat)
    requires forall l: u256 :: k <= l ==> (Has(q.future, a, l) <==> Has(q'.future, a, l))
    ensures RunEnd(q, a, k) == RunEnd(q', a, k)
    decreases TWO_256 - k
  {
    if k < TWO_256 && Has(q.future, a, k) {
      RunEndAfter(q, q', a, k + 1);
    }
  }

  /** One promotion of a run, as seen from one slot. */
  lemma PromoteFirst(q: Queue, a: Address, k: u256, b: Address, l: u256)
    requires Sound(q) && Has(q.future, a, k)
    ensures var q1 := MoveUp(q, a, k);
            && Sound(q1) && q1.futureSize <= q.futureSize && q1.known == q.known && q1.dropped == q.dropped
            && RunEnd(q, a, k) == RunEnd(q1, a, k + 1)
            && FutureAt(q1, b, l) == if b == a && l == k then None else FutureAt(q, b, l)
  {
    MoveUpAt(q, a, k);
    RunEndMoved(q, a, k);
  }

  lemma {:induction false} PromoteRunSound(q: Queue, a: Address, k: nat)
    requires Sound(q)
    ensures Sound(PromoteRun(q, a, k)) && PromoteRun(q, a, k).futureSize <= q.futureSize
    ensures PromoteRun(q, a, k).known == q.known && PromoteRun(q, a, k).dropped == q.dropped
    decreases TWO_256 - k, 1
  {
    if k < TWO_256 && Has(q.future, a, k) {
      PromoteRunSoundStep(q, a, k);
    }
  }

  lemma {:induction false} PromoteRunSoundStep(q: Queue, a: Address, k: u256)
    requires Sound(q) && Has(q.future, a, k)
    ensures Sound(PromoteRun(q, a, k)) && PromoteRun(q, a, k).futureSize <= q.futureSize
    ensures PromoteRun(q, a, k).known == q.known && PromoteRun(q, a, k).dropped == q.dropped
    decreases TWO_256 - k, 0
  {
    PromoteFirst(q, a, k, a, k);
    PromoteRunSound(MoveUp(q, a, k), a, k + 1);
  }

  /** Promotion loses nothing. */
  lemma {:induction false} PromoteRunAt(q: Queue, a: Address, k: nat, b: Address, l: u256)
    requires Sound(q)
    ensures At(PromoteRun(q, a, k), b, l) == At(q, b, l)
    decreases TWO_256 - k, 1
  {
    if k < TWO_256 && Has(q.future, a, k) {
      PromoteRunAtStep(q, a, k, b, l);
    }
  }

  lemma {:induction false} PromoteRunAtStep(q: Queue, a: Address, k: u256, b: Address, l: u256)
    requires Sound(q) && Has(q.future, a, k)
    ensures At(PromoteRun(q, a, k), b, l) == At(q, b, l)
    decreases TWO_256 - k, 0
  {
    var q1 := MoveUp(q, a, k);
    MoveUpKeeps(q, a, k, b, l);
    PromoteRunAt(q1, a, k + 1, b, l);
    assert PromoteRun(q, a, k) == PromoteRun(q1, a, k + 1);
  }

  lemma MoveUpKeeps(q: Queue, a: Address, k: u256, b: Address, l: u256)
    requires Sound(q) && Has(q.future, a, k)
    ensures Sound(MoveUp(q, a, k)) && At(MoveUp(q, a, k), b, l) == At(q, b, l)
  {
    MoveUpAt(q, a, k);
  }

  /** Exactly the run moves. */
  lemma {:induction false} PromoteRunFuture(q: Queue, a: Address, k: nat, b: Address, l: u256)
    requires Sound(q)
    ensures FutureAt(PromoteRun(q, a, k), b, l)
            == if b == a && k <= l < RunEnd(q, a, k) then None else FutureAt(q, b, l)
    decreases TWO_256 - k, 1
  {
    if k < TWO_256 && Has(q.future, a, k) {
      PromoteRunFutureStep(q, a, k, b, l);
    }
  }

  lemma {:induction false} PromoteRunFutureStep(q: Queue, a: Address, k: u256, b: Address, l: u256)
    requires Sound(q) && Has(q.future, a, k)
    ensures FutureAt(PromoteRun(q, a, k), b, l)
            == if b == a && k <= l < RunEnd(q, a, k) then None else FutureAt(q, b, l)
    decreases TWO_256 - k, 0
  {
    var q1 := MoveUp(q, a, k);
    PromoteFirst(q, a, k, b, l);
    PromoteRunFuture(q1, a, k + 1, b, l);
    FutureTwice(q, q1, PromoteRun(q1, a, k + 1), a, k, b, l, RunEnd(q1, a, k + 1));
  }

  lemma FutureTwice(q: Queue, q1: Queue, r: Queue, a: Address, k: u256, b: Address, l: u256, end: nat)
    requires k < end && FutureAt(q1, b, l) == if b == a && l == k then None else FutureAt(q, b, l)
    requires FutureAt(r, b, l) == if b == a && k + 1 <= l < end then None else FutureAt(q1, b, l)
    ensures FutureAt(r, b, l) == if b == a && k <= l < end then None else FutureAt(q, b, l)
  {
  }

  lemma RunEndMoved(q: Queue, a: Address, k: u256)
    requires Sound(q) && Has(q.future, a, k)
    ensures RunEnd(q, a, k + 1) == RunEnd(MoveUp(q, a, k), a, k + 1)
  {
    var q1 := MoveUp(q, a, k);
    MoveUpIs(q, a, k);
    forall l: u256 | k + 1 <= l
      ensures Has(q.future, a, l) <==> Has(q1.future, a, l)
    {
      EraseHas(q.future, a, k, a, l);
    }
    RunEndAfter(q, q1, a, k + 1);
  }

  /** From current to future. */
  function MoveDown(q: Queue, n: Handle): Queue
    requires n in q.current && q.current[n].sender in q.byNonce
  {
    AddFuture(Remove(q, n), q.current[n])
  }

  lemma MoveDownAt(q: Queue, n: Handle)
    requires Sound(q) && n in q.current
    ensures Has(q.byNonce, q.current[n].sender, q.current[n].nonce) && Sound(MoveDown(q, n))
    ensures forall b, l :: At(MoveDown(q, n), b, l) == At(q, b, l)
    ensures forall b, l :: FutureAt(MoveDown(q, n), b, l)
                           == if b == q.current[n].sender && l == q.current[n].nonce then Some(q.current[n])
                              else FutureAt(q, b, l)
  {
    var t := q.current[n];
    RemoveAtAll(q, n);
    EraseHas(q.byNonce, t.sender, t.nonce, t.sender, t.nonce);
    AddFutureAt(Remove(q, n), t);
  }

  // ---------------------------------------------------------------- the known set

  ghost predicate CoveredAt(q: Queue, a: Address, k: u256) { At(q, a, k).Some? ==> Sha3(At(q, a, k).value) in q.known }

  /** `m_known` covers everything queued. */
  ghost predicate Covered(q: Queue) { forall a, k {:trigger CoveredAt(q, a, k)} :: CoveredAt(q, a, k) }

  ghost predicate Inv(q: Queue) { Sound(q) && Covered(q) }

  lemma AtFiled(q: Queue, a: Address, k: u256)
    requires Linked(q) && At(q, a, k).Some?
    ensures At(q, a, k).value.sender == a && At(q, a, k).value.nonce == k
  {
    assert SlotLinked(q, a, k) && FutureFiled(q, a, k);
  }

  /** Slots keep their transaction or lose it. */
  ghost predicate Within(q: Queue, q': Queue) {
    forall a, k {:trigger At(q', a, k)} :: At(q', a, k).None? || At(q', a, k) == At(q, a, k)
  }

  lemma StillCovered(q: Queue, q': Queue)
    requires Covered(q) && Within(q, q') && q.known <= q'.known
    ensures Covered(q')
  {
    forall a, k
      ensures CoveredAt(q', a, k)
    {
      assert CoveredAt(q, a, k);
    }
  }

  /** Forgetting the hash of a removed transaction. */
  lemma RemovedCovered(q: Queue, q': Queue, t: Tx)
    requires Linked(q) && Covered(q) && Within(q, q') && At(q', t.sender, t.nonce).None?
             && q'.known == q.known - {Sha3(t)}
    ensures Covered(q')
  {
    forall a, k
      ensures CoveredAt(q', a, k)
    {
      assert CoveredAt(q, a, k);
      if At(q, a, k).Some? {
        AtFiled(q, a, k);
      }
    }
  }
}
