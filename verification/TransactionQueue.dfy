/** The transaction queue: import with replacement, removal, demotion to the future set and promotion from it. */
module TransactionQueue {
  import opened Collections
  import opened Words
  import opened TxIndexes

  datatype ImportResult = Success | OverbidGasPrice | AlreadyKnown | AlreadyInChain | ZeroSignature

  // ---------------------------------------------------------------- dropping future transactions

  /** Whatever stays future, so do the sender's future transactions with lower nonces. */
  ghost predicate TrimmedAt(q: Queue, q': Queue, b: Address, l: u256, m: u256) {
    l < m && Has(q.future, b, l) && Has(q'.future, b, m) ==> Has(q'.future, b, l)
  }

  /** `q'` is `q` with future transactions dropped from the ends of the senders' chains. */
  ghost predicate Trimmed(q: Queue, q': Queue) {
    && q' == q.(future := q'.future, futureSize := q'.futureSize) && q'.futureSize <= q.futureSize
    && (forall b, l {:trigger FutureAt(q', b, l)} ::
          FutureAt(q', b, l).None? || FutureAt(q', b, l) == FutureAt(q, b, l))
    && (forall b, l, m {:trigger TrimmedAt(q, q', b, l, m)} :: TrimmedAt(q, q', b, l, m))
  }

  lemma TrimStep(q0: Queue, q: Queue, a: Address, k: u256)
    requires Sound(q) && Trimmed(q0, q) && Has(q.future, a, k) && forall l :: l in q.future[a] ==> l <= k
    ensures Sound(EraseFuture(q, a, k)) && EraseFuture(q, a, k).futureSize == q.futureSize - 1
    ensures Trimmed(q0, EraseFuture(q, a, k))
  {
    var q' := EraseFuture(q, a, k);
    EraseFutureAt(q, a, k);
    forall b, l, m
      ensures TrimmedAt(q0, q', b, l, m)
    {
      assert TrimmedAt(q0, q, b, l, m);
      EraseHas(q.future, a, k, b, l);
      EraseHas(q.future, a, k, b, m);
    }
    forall b, l
      ensures FutureAt(q', b, l).None? || FutureAt(q', b, l) == FutureAt(q0, b, l)
    {
      assert FutureAt(q, b, l).None? || FutureAt(q, b, l) == FutureAt(q0, b, l);
    }
  }

  lemma SomeFuture(q: Queue)
    requires Tallied(q) && 0 < q.futureSize
    ensures exists a :: a in q.future
    ensures forall a :: a in q.future ==> q.future[a].Keys != {}
  {
    var s :| s in Slots(q.future);
    assert s.0 in q.future;
  }

  /** The last key of an ordered map. */
  method LastKey(keys: set<u256>) returns (k: u256)
    requires keys != {}
    ensures k in keys && forall l :: l in keys ==> l <= k
  {
    k :| k in keys;
    var rest := keys - {k};
    while rest != {}
      invariant rest <= keys && k in keys && forall l :: l in keys && l !in rest ==> l <= k
      decreases rest
    {
      var l :| l in rest;
      rest := rest - {l};
      if k < l {
        k := l;
      }
    }
  }

  /** The three indexes hold the same transactions, none of them also future, and all of them known. */
  lemma IndexesAgree(q: Queue, t: Tx)
    requires Inv(q)
    ensures Sha3(t) in q.byHash <==> t in q.current.Values
    ensures t in q.current.Values <==> CurrentAt(q, t.sender, t.nonce) == Some(t)
    ensures t in q.current.Values ==> FutureAt(q, t.sender, t.nonce).None? && Sha3(t) in q.known
  {
    assert SlotLinked(q, t.sender, t.nonce) && FutureFiled(q, t.sender, t.nonce) && CoveredAt(q, t.sender, t.nonce);
    if Sha3(t) in q.byHash {
      assert HashLinked(q, Sha3(t));
    }
    if t in q.current.Values {
      var n :| n in q.current && q.current[n] == t;
      assert EntryLinked(q, n);
    }
  }

  // ---------------------------------------------------------------- what an import may change

  /** While a slot stays occupied, its gas price does not go down. */
  ghost predicate PricesKept(q: Queue, q': Queue) {
    forall a, k {:trigger At(q', a, k)} ::
      At(q, a, k).Some? && At(q', a, k).Some? ==> At(q, a, k).value.gasPrice <= At(q', a, k).value.gasPrice
  }

  /** What a slot should hold once `t` is in. */
  ghost function Wanted(q: Queue, t: Tx, a: Address, k: u256): Option<Tx> {
    if a == t.sender && k == t.nonce then Some(t) else At(q, a, k)
  }

  /** Every slot holds what it should, or nothing. */
  ghost predicate WantedOrNone(q: Queue, q': Queue, t: Tx) {
    forall a, k {:trigger At(q', a, k)} :: At(q', a, k).None? || At(q', a, k) == Wanted(q, t, a, k)
  }

  ghost predicate AllWanted(q: Queue, q': Queue, t: Tx) {
    forall a, k {:trigger At(q', a, k)} :: At(q', a, k) == Wanted(q, t, a, k)
  }

  ghost predicate Outbid(q: Queue, t: Tx) {
    At(q, t.sender, t.nonce).Some? && t.gasPrice < At(q, t.sender, t.nonce).value.gasPrice
  }

  /** `q'` is `q` without the occupant of `t`'s slot. */
  ghost predicate Vacated(q: Queue, q': Queue, t: Tx) {
    && !Has(q'.byNonce, t.sender, t.nonce) && !Has(q'.future, t.sender, t.nonce)
    && forall a, k {:trigger At(q', a, k)} ::
         At(q', a, k) == if a == t.sender && k == t.nonce then None else At(q, a, k)
  }

  /** No new future transactions. */
  ghost predicate FutureWithin(q: Queue, q': Queue) {
    forall a, k {:trigger FutureAt(q', a, k)} :: FutureAt(q', a, k).Some? ==> FutureAt(q, a, k).Some?
  }

  /** Every slot holds what it should, but for transactions that were future. */
  ghost predicate LostOnlyFuture(q: Queue, q': Queue, t: Tx) {
    forall a, k {:trigger At(q', a, k)} :: At(q', a, k) == Wanted(q, t, a, k) || FutureAt(q, a, k).Some?
  }

  lemma TrimmedWithin(q: Queue, q': Queue)
    requires Trimmed(q, q')
    ensures Within(q, q')
  {
    forall a, k
      ensures At(q', a, k).None? || At(q', a, k) == At(q, a, k)
    {
      assert FutureAt(q', a, k).None? || FutureAt(q', a, k) == FutureAt(q, a, k);
    }
  }

  lemma InsertedOne(q0: Queue, q1: Queue, t: Tx, a: Address, k: u256)
    requires Inv(q1) && Vacated(q0, q1, t)
    ensures At(PromoteRun(Insert(q1, t), t.sender, Add(t.nonce, 1)), a, k) == Wanted(q0, t, a, k)
    ensures FutureAt(PromoteRun(Insert(q1, t), t.sender, Add(t.nonce, 1)), a, k).Some? ==> FutureAt(q1, a, k).Some?
  {
    InsertAtAll(q1, t);
    PromoteRunAt(Insert(q1, t), t.sender, Add(t.nonce, 1), a, k);
    PromoteRunFuture(Insert(q1, t), t.sender, Add(t.nonce, 1), a, k);
    assert At(q1, a, k) == if a == t.sender && k == t.nonce then None else At(q0, a, k);
  }

  lemma Inserted(q0: Queue, q1: Queue, t: Tx, q2: Queue)
    requires Inv(q1) && Vacated(q0, q1, t) && q2 == PromoteRun(Insert(q1, t), t.sender, Add(t.nonce, 1))
    ensures AllWanted(q0, q2, t) && q2.known == q1.known && q2.dropped == q1.dropped && FutureWithin(q1, q2)
  {
    forall a, k
      ensures At(q2, a, k) == Wanted(q0, t, a, k)
      ensures FutureAt(q2, a, k).Some? ==> FutureAt(q1, a, k).Some?
    {
      InsertedOne(q0, q1, t, a, k);
    }
    InsertAtAll(q1, t);
    PromoteRunSound(Insert(q1, t), t.sender, Add(t.nonce, 1));
  }

  lemma NoneFollows(q: Queue, a: Address, k: u256)
    requires Sound(q)
    ensures FutureAt(PromoteRun(q, a, k), a, k).None?
  {
    PromoteRunFuture(q, a, k, a, k);
  }

  /** From the vacated slot to the queue with `t` and its followers in it. */
  lemma ImportStages(q0: Queue, q1: Queue, q2: Queue, q3: Queue, t: Tx)
    requires Covered(q1) && Vacated(q0, q1, t) && Trimmed(q2, q3) && AllWanted(q0, q2, t) && q2.known == q1.known
    requires FutureWithin(q0, q1) && FutureWithin(q1, q2)
    ensures WantedOrNone(q0, q3, t) && Covered(q3.(known := q3.known + {Sha3(t)})) && LostOnlyFuture(q0, q3, t)
  {
    TrimmedWithin(q2, q3);
    var q4 := q3.(known := q3.known + {Sha3(t)});
    forall a, k
      ensures At(q3, a, k).None? || At(q3, a, k) == Wanted(q0, t, a, k)
      ensures At(q3, a, k) == Wanted(q0, t, a, k) || FutureAt(q0, a, k).Some?
      ensures CoveredAt(q4, a, k)
    {
      assert FutureAt(q2, a, k).Some? ==> FutureAt(q1, a, k).Some?;
      assert FutureAt(q1, a, k).Some? ==> FutureAt(q0, a, k).Some?;
      assert CoveredAt(q1, a, k);
      assert At(q2, a, k) == Wanted(q0, t, a, k);
      assert At(q1, a, k) == if a == t.sender && k == t.nonce then None else At(q0, a, k);
    }
  }

  class TransactionQueue {
    const limit: nat
    const futureLimit: nat
    var current: map<Handle, Tx>
    var byHash: map<Hash, Handle>
    var byNonce: Nested<Handle>
    var future: Nested<Tx>
    var futureSize: nat
    var known: set<Hash>
    var dropped: set<Hash>
    var next: Handle

    ghost function State(): Queue
      reads this
    {
      Queue(current, byHash, byNonce, future, futureSize, known, dropped, next)
    }

    ghost predicate Valid()
      reads this
    {
      Inv(State())
    }

    constructor (limit: nat, futureLimit: nat)
      ensures Valid() && forall a, k :: At(State(), a, k).None?
      ensures this.limit == limit && this.futureLimit == futureLimit && known == {} && dropped == {}
    {
      this.limit, this.futureLimit := limit, futureLimit;
      current, byHash, byNonce, future, futureSize := map[], map[], map[], map[], 0;
      known, dropped, next := {}, {}, 0;
      new;
      assert Slots(future) == {};
    }

    /** Insert into `m_current` and its indexes. */
    method Emplace(t: Tx)
      modifies this
      ensures State() == Insert(old(State()), t)
    {
      current := current[next := t];
      byHash := byHash[Sha3(t) := next];
      byNonce := Put(byNonce, t.sender, t.nonce, next);
      next := next + 1;
    }

    /** Drop the ends of arbitrary senders' chains until the limit holds. */
    method TrimFuture()
      requires Sound(State())
      modifies this`future, this`futureSize
      ensures Sound(State()) && Trimmed(old(State()), State()) && futureSize <= futureLimit
      ensures futureSize == Min(old(futureSize), futureLimit)
      ensures old(futureSize) <= futureLimit ==> State() == old(State())
    {
      ghost var q0 := State();
      while futureLimit < futureSize
        invariant Sound(State()) && Trimmed(q0, State())
        invariant State() == q0 || (futureLimit <= futureSize && futureLimit < q0.futureSize)
        decreases futureSize
      {
        SomeFuture(State());
        var a :| a in future;
        var k := LastKey(future[a].Keys);
        TrimStep(q0, State(), a, k);
        futureSize := Dec(futureSize);
        future := Erase(future, a, k);
      }
    }

    /** The run of future transactions that follow `t` becomes current. */
    method PromoteFollowers(t: Tx)
      modifies this
      ensures State() == PromoteRun(old(State()), t.sender, Add(t.nonce, 1))
    {
      var nonce: nat := Add(t.nonce, 1);
      while nonce < TWO_256 && Has(future, t.sender, nonce)
        invariant PromoteRun(State(), t.sender, nonce) == PromoteRun(old(State()), t.sender, Add(t.nonce, 1))
        decreases TWO_256 - nonce
      {
        PromoteNext(t.sender, nonce);
        nonce := nonce + 1;
      }
    }

    method PromoteNext(a: Address, nonce: u256)
      requires Has(future, a, nonce)
      modifies this
      ensures State() == MoveUp(old(State()), a, nonce)
    {
      var x := future[a][nonce];
      MoveUpIs(State(), a, nonce);
      futureSize := Dec(futureSize);
      future := Erase(future, a, nonce);
      Emplace(x);
    }

    /** Promote the transactions that follow `t`; then enforce the future limit. */
    method MakeCurrent(t: Tx)
      requires Sound(State())
      modifies this
      ensures Sound(State()) && futureSize <= futureLimit
      ensures var q := PromoteRun(old(State()), t.sender, Add(t.nonce, 1));
              Trimmed(q, State()) && (futureSize < futureLimit ==> State() == q)
      ensures !Has(future, t.sender, Add(t.nonce, 1))
    {
      PromoteRunSound(State(), t.sender, Add(t.nonce, 1));
      NoneFollows(State(), t.sender, Add(t.nonce, 1));
      PromoteFollowers(t);
      TrimFuture();
      assert FutureAt(State(), t.sender, Add(t.nonce, 1)).None?;
    }

    /** Remove a current transaction. */
    method RemoveWithLock(h: Hash) returns (found: bool)
      requires Valid()
      modifies this
      ensures Valid() && (found <==> h in old(byHash))
      ensures !found ==> State() == old(State())
      ensures found ==> |current| == old(|current|) - 1 && known == old(known) - {h}
      ensures h !in byHash
      ensures found ==> Vacated(old(State()), State(), h.tx) && At(old(State()), h.tx.sender, h.tx.nonce) == Some(h.tx)
      ensures future == old(future) && futureSize == old(futureSize) && dropped == old(dropped)
    {
      if h !in byHash {
        return false;
      }
      ghost var q := State();
      var n := byHash[h];
      RemoveOne(q, h);
      var t := current[n];
      byNonce := Erase(byNonce, t.sender, t.nonce);
      current := current - {n};
      byHash := byHash - {h};
      known := known - {h};
      found := true;
    }

    /** Make room for `t`, unless the slot's occupant pays more. */
    method Vacate(t: Tx) returns (ok: bool)
      requires Valid()
      modifies this
      ensures ok <==> !Outbid(old(State()), t)
      ensures !ok ==> State() == old(State())
      ensures ok ==> Valid() && Vacated(old(State()), State(), t) && dropped == old(dropped)
      ensures FutureWithin(old(State()), State())
    {
      ghost var q := State();
      SlotCases(q, t);
      if Has(byNonce, t.sender, t.nonce) {
        var x := current[byNonce[t.sender][t.nonce]];
        if t.gasPrice < x.gasPrice {
          return false;
        }
        var found := RemoveWithLock(Sha3(x));
      }
      if Has(future, t.sender, t.nonce) {
        if t.gasPrice < future[t.sender][t.nonce].gasPrice {
          return false;
        }
        future := Erase(future, t.sender, t.nonce);
        futureSize := Dec(futureSize);
      }
      ok := true;
    }

    /** Insert `t` and promote the future transactions that follow it. */
    method InsertCurrent(t: Tx)
      requires Sound(State()) && !Has(byNonce, t.sender, t.nonce) && !Has(future, t.sender, t.nonce)
      modifies this
      ensures Sound(State()) && futureSize <= futureLimit
      ensures var q := PromoteRun(Insert(old(State()), t), t.sender, Add(t.nonce, 1));
              exists q' :: Trimmed(q, q') && State() == q'.(known := q'.known + {Sha3(t)})
                           && (futureSize < futureLimit ==> q' == q)
      ensures !Has(future, t.sender, t.nonce) && !Has(future, t.sender, Add(t.nonce, 1))
    {
      ghost var q2 := Insert(State(), t);
      InsertFresh(State(), t);
      InsertAtAll(State(), t);
      PromoteRunFuture(q2, t.sender, Add(t.nonce, 1), t.sender, t.nonce);
      Emplace(t);
      MakeCurrent(t);
      ghost var q' := State();
      assert FutureAt(q', t.sender, t.nonce).None?;
      known := known + {Sha3(t)};
      SameIndexes(q', State());
    }

    /** Remove current transactions, the comparator's last ones in the source, until the limit holds. */
    method EnforceLimit()
      requires Valid()
      modifies this
      ensures Valid() && Within(old(State()), State()) && |current| == Min(old(|current|), limit)
      ensures old(|current|) <= limit ==> State() == old(State())
      ensures future == old(future) && futureSize == old(futureSize) && dropped == old(dropped)
    {
      ghost var q := State();
      while limit < |current|
        invariant Valid() && Within(q, State()) && (State() == q || (limit <= |current| && limit < |q.current|))
        invariant future == old(future) && futureSize == old(futureSize) && dropped == old(dropped)
        decreases |current|
      {
        assert current.Keys != {};
        var n :| n in current;
        EntryIsLinked(State(), n);
        var found := RemoveWithLock(Sha3(current[n]));
      }
    }

    /**
     Import a transaction.  A slot's occupant is only replaced by a transaction that pays at least as much.  On success
     both limits hold, the transaction is not left in the future set and nor is its follower, and unless a limit is
     reached every slot holds what it should.
     */
    method Import(t: Tx, retry: bool) returns (r: ImportResult)
      requires Valid()
      modifies this
      ensures Valid() && PricesKept(old(State()), State())
      ensures r.ZeroSignature? <==> t.zeroSignature
      ensures r.AlreadyKnown? <==> !t.zeroSignature && Sha3(t) in old(known)
      ensures r.AlreadyInChain? <==>
                !t.zeroSignature && Sha3(t) !in old(known) && Sha3(t) in old(dropped) && !retry
      ensures r.OverbidGasPrice? ==>
                var slot := At(old(State()), t.sender, t.nonce); slot.Some? && t.gasPrice < slot.value.gasPrice
      ensures r.Success? ==>
                var slot := At(old(State()), t.sender, t.nonce); slot.None? || slot.value.gasPrice <= t.gasPrice
      ensures !r.Success? ==> State() == old(State())
      ensures r.Success? ==>
                && !Outbid(old(State()), t) && |current| <= limit && futureSize <= futureLimit
                && dropped == old(dropped)
                && WantedOrNone(old(State()), State(), t)
                && (|current| < limit ==> LostOnlyFuture(old(State()), State(), t))
                && (|current| < limit && futureSize < futureLimit ==> AllWanted(old(State()), State(), t))
                && !Has(future, t.sender, t.nonce) && !Has(future, t.sender, Add(t.nonce, 1))
    {
      if t.zeroSignature {
        return ZeroSignature;
      }
      if Sha3(t) in known {
        return AlreadyKnown;
      }
      if Sha3(t) in dropped && !retry {
        return AlreadyInChain;
      }
      r := ManageImport(t);
    }

    method ManageImport(t: Tx) returns (r: ImportResult)
      requires Valid()
      modifies this
      ensures Valid() && PricesKept(old(State()), State()) && (r.Success? || r.OverbidGasPrice?)
      ensures r.OverbidGasPrice? ==> Outbid(old(State()), t) && State() == old(State())
      ensures r.Success? ==>
                && !Outbid(old(State()), t) && |current| <= limit && futureSize <= futureLimit
                && dropped == old(dropped)
                && WantedOrNone(old(State()), State(), t)
                && (|current| < limit ==> LostOnlyFuture(old(State()), State(), t))
                && (|current| < limit && futureSize < futureLimit ==> AllWanted(old(State()), State(), t))
                && !Has(future, t.sender, t.nonce) && !Has(future, t.sender, Add(t.nonce, 1))
    {
      ghost var q0 := State();
      var ok := Vacate(t);
      if !ok {
        return OverbidGasPrice;
      }
      FillAndTrim(t, q0);
      WantedPrices(q0, State(), t);
      r := Success;
    }

    method FillAndTrim(t: Tx, ghost q0: Queue)
      requires Valid() && Vacated(q0, State(), t) && FutureWithin(q0, State())
      modifies this
      ensures Valid() && |current| <= limit && futureSize <= futureLimit && dropped == old(dropped)
      ensures WantedOrNone(q0, State(), t)
      ensures |current| < limit ==> LostOnlyFuture(q0, State(), t)
      ensures |current| < limit && futureSize < futureLimit ==> AllWanted(q0, State(), t)
      ensures !Has(future, t.sender, t.nonce) && !Has(future, t.sender, Add(t.nonce, 1))
    {
      ghost var q1 := State();
      InsertCurrent(t);
      ghost var q4 := State();
      Filled(q0, q1, q4, t, futureSize < futureLimit);
      EnforceLimit();
      ghost var q5 := State();
      assert Within(q4, q5);
      assert WantedOrNone(q0, q5, t);
    }

    /** Forget a transaction and remember not to take it again.  A future transaction stays queued. */
    method Drop(h: Hash)
      requires Valid()
      modifies this
      ensures Valid() && Within(old(State()), State()) && future == old(future) && PricesKept(old(State()), State())
      ensures h !in old(known) ==> State() == old(State())
      ensures h in old(known) ==> h in dropped && h !in byHash
      ensures forall a, k :: At(State(), a, k) != At(old(State()), a, k) ==> a == h.tx.sender && k == h.tx.nonce
    {
      if h !in known {
        return;
      }
      ghost var q := State();
      DropKeeps(q, h);
      dropped := dropped + {h};
      ghost var q1 := State();
      assert forall a, k :: At(q1, a, k) == At(q, a, k);
      var found := RemoveWithLock(h);
    }

    /** A transaction got into a block: promote its followers, then remove it. */
    method DropGood(t: Tx)
      requires Valid()
      modifies this
      ensures Valid() && Within(old(State()), State()) && futureSize <= futureLimit && PricesKept(old(State()), State())
      ensures !Has(future, t.sender, Add(t.nonce, 1)) && Sha3(t) !in byHash
      ensures futureSize < futureLimit ==>
                forall a, k :: At(State(), a, k) == At(old(State()), a, k) || (a == t.sender && k == t.nonce)
    {
      ghost var q0 := State();
      MakeCurrent(t);
      Followers(q0, State(), t);
      RemoveKnown(t);
    }

    method RemoveKnown(t: Tx)
      requires Valid()
      modifies this
      ensures Valid() && Within(old(State()), State()) && Sha3(t) !in byHash
      ensures future == old(future) && futureSize == old(futureSize)
      ensures forall a, k :: At(State(), a, k) == At(old(State()), a, k) || (a == t.sender && k == t.nonce)
    {
      QueuedIsKnown(State(), Sha3(t));
      if Sha3(t) in known {
        var found := RemoveWithLock(Sha3(t));
      }
    }

    /** Demote a current transaction and those of its sender with higher nonces. */
    method SetFuture(h: Hash)
      requires Valid()
      modifies this
      ensures Valid() && known == old(known) && dropped == old(dropped)
      ensures h !in old(byHash) ==> State() == old(State())
      ensures h in old(byHash) ==> Demoted(old(State()), State(), h.tx.sender, h.tx.nonce)
      ensures PricesKept(old(State()), State())
    {
      if h !in byHash {
        return;
      }
      ghost var q := State();
      RemoveOne(q, h);
      var a, cutoff := current[byHash[h]].sender, current[byHash[h]].nonce;
      DemoteFrom(a, cutoff);
      DemotedAll(q, State(), a, cutoff, set k | k in q.byNonce[a] && cutoff <= k);
    }

    /** Move the entries of a sender from nonce `cutoff` on, one after the other. */
    method DemoteFrom(a: Address, cutoff: u256)
      requires Valid() && a in byNonce
      modifies this
      ensures Sound(State()) && known == old(known) && dropped == old(dropped)
      ensures DemotedSome(old(State()), State(), a, set k | k in old(byNonce)[a] && cutoff <= k)
    {
      ghost var q := State();
      var pending := set k | k in byNonce[a] && cutoff <= k;
      ghost var all := pending;
      assert all - pending == {};
      DemotedNone(q, a);
      while pending != {}
        invariant pending <= all && known == q.known && dropped == q.dropped
        invariant Sound(State()) && DemotedSome(q, State(), a, all - pending)
        decreases pending
      {
        var k :| k in pending;
        DemoteNext(q, a, all - pending, k);
        assert (all - pending) + {k} == all - (pending - {k});
        pending := pending - {k};
      }
      assert all - pending == all;
    }

    method DemoteNext(ghost q: Queue, a: Address, ghost moved: set<u256>, k: u256)
      requires Inv(q) && Sound(State()) && DemotedSome(q, State(), a, moved) && Has(q.byNonce, a, k) && k !in moved
      modifies this
      ensures Sound(State()) && DemotedSome(q, State(), a, moved + {k}) && known == old(known)
              && dropped == old(dropped)
    {
      DemoteStep(q, State(), a, moved, k);
      DemoteOne(a, k);
    }

    method DemoteOne(a: Address, k: u256)
      requires Has(byNonce, a, k) && byNonce[a][k] in current
      requires current[byNonce[a][k]].sender == a && current[byNonce[a][k]].nonce == k
      modifies this
      ensures State() == MoveDown(old(State()), old(byNonce)[a][k])
    {
      var n := byNonce[a][k];
      var t := current[n];
      byHash := byHash - {Sha3(t)};
      byNonce := Erase(byNonce, a, k);
      current := current - {n};
      future := Put(future, a, k, t);
      futureSize := futureSize + 1;
    }

    /**
     The nonce that would follow the sender's queued transactions.  It is above all of them exactly when none has the
     largest possible nonce.
     */
    method MaxNonce(a: Address) returns (r: u256)
      requires Valid()
      ensures r == 0 || At(State(), a, r - 1).Some?
      ensures (forall k: u256 :: At(State(), a, k).Some? ==> k < r) <==> At(State(), a, TWO_256 - 1).None?
    {
      r := 0;
      if a in byNonce && byNonce[a] != map[] {
        var k := LastKey(byNonce[a].Keys);
        r := Add(k, 1);
      }
      ghost var r0 := r;
      if a in future && future[a] != map[] {
        var k := LastKey(future[a].Keys);
        if r < Add(k, 1) {
          r := Add(k, 1);
        }
      }
      forall k: u256
        ensures At(State(), a, k).Some? <==> Has(byNonce, a, k) || Has(future, a, k)
      {
        assert SlotLinked(State(), a, k);
      }
    }
  }

  /** A transaction alone in the queue is current, if it is in it at all and not future. */
  lemma AtMostOne(q: Queue, t: Tx)
    requires Inv(q) && !Has(q.future, t.sender, t.nonce)
    requires forall a, k {:trigger At(q, a, k)} :: At(q, a, k).Some? ==> a == t.sender && k == t.nonce
    ensures |q.current| <= 1 && q.futureSize == 0
  {
    forall n | n in q.current
      ensures Has(q.byNonce, t.sender, t.nonce) && n == q.byNonce[t.sender][t.nonce]
    {
      assert EntryLinked(q, n);
      assert At(q, q.current[n].sender, q.current[n].nonce).Some?;
    }
    if n :| n in q.current {
      assert q.current.Keys == {n};
      assert |q.current| == |q.current.Keys|;
    }
    forall a, k
      ensures !Has(q.future, a, k)
    {
      assert SlotLinked(q, a, k);
      assert Has(q.future, a, k) ==> At(q, a, k).Some?;
    }
    assert forall x :: x in Slots(q.future) ==> Has(q.future, x.0, x.1);
    assert Slots(q.future) == {};
  }

  /** After the transaction with the largest nonce comes nonce zero. */
  method NonceAfterLargest(t: Tx) returns (q: TransactionQueue, r: u256)
    requires t.nonce == TWO_256 - 1 && !t.zeroSignature
    ensures q.Valid() && At(q.State(), t.sender, t.nonce) == Some(t) && r == 0
  {
    q := new TransactionQueue(2, 2);
    var imported := q.Import(t, false);
    assert imported.Success?;
    AtMostOne(q.State(), t);
    r := q.MaxNonce(t.sender);
  }

  /** The sender's transactions with nonces in `moved` have become future ones. */
  ghost predicate DemotedSome(q: Queue, q': Queue, a: Address, moved: set<u256>) {
    && (forall b, l {:trigger At(q', b, l)} :: At(q', b, l) == At(q, b, l))
    && (forall b, l {:trigger FutureAt(q', b, l)} ::
          FutureAt(q', b, l) == if b == a && l in moved then At(q, b, l) else FutureAt(q, b, l))
  }

  /** Every slot keeps its transaction, and those of the sender from nonce `cutoff` on are future. */
  ghost predicate Demoted(q: Queue, q': Queue, a: Address, cutoff: u256) {
    && (forall b, l {:trigger At(q', b, l)} :: At(q', b, l) == At(q, b, l))
    && (forall b, l {:trigger FutureAt(q', b, l)} ::
          FutureAt(q', b, l) == if b == a && cutoff <= l then At(q, b, l) else FutureAt(q, b, l))
  }

  lemma DemotedNone(q: Queue, a: Address)
    ensures DemotedSome(q, q, a, {})
  {
  }

  lemma DemoteStep(q: Queue, q1: Queue, a: Address, moved: set<u256>, k: u256)
    requires Inv(q) && Sound(q1) && DemotedSome(q, q1, a, moved) && Has(q.byNonce, a, k) && k !in moved
    ensures Has(q1.byNonce, a, k) && q1.byNonce[a][k] in q1.current
    ensures var n := q1.byNonce[a][k];
            var t := q1.current[n];
            && t.sender == a && t.nonce == k && Sound(MoveDown(q1, n))
            && DemotedSome(q, MoveDown(q1, n), a, moved + {k})
  {
    assert SlotLinked(q, a, k) && FutureFiled(q, a, k);
    assert FutureAt(q1, a, k) == FutureAt(q, a, k) && At(q1, a, k) == At(q, a, k);
    assert SlotLinked(q1, a, k);
    var n := q1.byNonce[a][k];
    MoveDownAt(q1, n);
    var q2 := MoveDown(q1, n);
    forall b, l
      ensures At(q2, b, l) == At(q, b, l)
      ensures FutureAt(q2, b, l) == if b == a && l in moved + {k} then At(q, b, l) else FutureAt(q, b, l)
    {
      assert At(q1, b, l) == At(q, b, l);
      assert FutureAt(q1, b, l) == if b == a && l in moved then At(q, b, l) else FutureAt(q, b, l);
    }
  }

  lemma DemotedAll(q: Queue, q': Queue, a: Address, cutoff: u256, moved: set<u256>)
    requires Inv(q) && DemotedSome(q, q', a, moved) && Sound(q') && q'.known == q.known
    requires forall k :: k in moved <==> Has(q.byNonce, a, k) && cutoff <= k
    ensures Demoted(q, q', a, cutoff) && Inv(q')
  {
    forall b, l
      ensures FutureAt(q', b, l) == if b == a && cutoff <= l then At(q, b, l) else FutureAt(q, b, l)
    {
      assert SlotLinked(q, b, l);
    }
    assert Within(q, q');
    StillCovered(q, q');
  }

  lemma QueuedIsKnown(q: Queue, h: Hash)
    requires Inv(q)
    ensures h in q.byHash ==> h in q.known
  {
    if h in q.byHash {
      RemoveOne(q, h);
      assert CoveredAt(q, h.tx.sender, h.tx.nonce);
    }
  }

  lemma DropKeeps(q: Queue, h: Hash)
    requires Inv(q)
    ensures Inv(q.(dropped := q.dropped + {h}))
  {
    var q' := q.(dropped := q.dropped + {h});
    SameIndexes(q, q');
    StillCovered(q, q');
  }

  lemma Followers(q: Queue, q': Queue, t: Tx)
    requires Inv(q) && Sound(q') && Trimmed(PromoteRun(q, t.sender, Add(t.nonce, 1)), q')
    ensures Inv(q') && Within(q, q')
    ensures q' == PromoteRun(q, t.sender, Add(t.nonce, 1)) ==> forall a, k :: At(q', a, k) == At(q, a, k)
  {
    var q1 := PromoteRun(q, t.sender, Add(t.nonce, 1));
    PromoteRunSound(q, t.sender, Add(t.nonce, 1));
    TrimmedWithin(q1, q');
    forall a, k
      ensures At(q', a, k).None? || At(q', a, k) == At(q, a, k)
      ensures q' == q1 ==> At(q', a, k) == At(q, a, k)
    {
      PromoteRunAt(q, t.sender, Add(t.nonce, 1), a, k);
    }
    StillCovered(q, q');
  }

  /** The queue after `InsertCurrent`. */
  lemma Filled(q0: Queue, q1: Queue, q4: Queue, t: Tx, untrimmed: bool)
    requires Inv(q1) && Vacated(q0, q1, t) && FutureWithin(q0, q1) && Sound(q4)
    requires var q := PromoteRun(Insert(q1, t), t.sender, Add(t.nonce, 1));
             exists q' :: Trimmed(q, q') && q4 == q'.(known := q'.known + {Sha3(t)}) && (untrimmed ==> q' == q)
    ensures Covered(q4) && WantedOrNone(q0, q4, t) && (untrimmed ==> AllWanted(q0, q4, t)) && q4.dropped == q1.dropped
    ensures LostOnlyFuture(q0, q4, t)
  {
    var q2 := PromoteRun(Insert(q1, t), t.sender, Add(t.nonce, 1));
    Inserted(q0, q1, t, q2);
    var q3 :| Trimmed(q2, q3) && q4 == q3.(known := q3.known + {Sha3(t)}) && (untrimmed ==> q3 == q2);
    FilledParts(q0, q1, q2, q3, t, untrimmed);
  }

  lemma FilledParts(q0: Queue, q1: Queue, q2: Queue, q3: Queue, t: Tx, untrimmed: bool)
    requires Covered(q1) && Vacated(q0, q1, t) && AllWanted(q0, q2, t) && q2.known == q1.known
             && q2.dropped == q1.dropped
    requires Trimmed(q2, q3) && (untrimmed ==> q3 == q2) && FutureWithin(q0, q1) && FutureWithin(q1, q2)
    ensures LostOnlyFuture(q0, q3.(known := q3.known + {Sha3(t)}), t)
    ensures var q4 := q3.(known := q3.known + {Sha3(t)});
            && Covered(q4) && WantedOrNone(q0, q4, t) && (untrimmed ==> AllWanted(q0, q4, t))
            && q4.dropped == q1.dropped
  {
    ImportStages(q0, q1, q2, q3, t);
    var q4 := q3.(known := q3.known + {Sha3(t)});
    forall a, k
      ensures At(q4, a, k) == At(q3, a, k)
    {
    }
  }

  lemma WantedPrices(q: Queue, q': Queue, t: Tx)
    requires WantedOrNone(q, q', t) && !Outbid(q, t)
    ensures PricesKept(q, q')
  {
  }

  /** A slot is current, future or free. */
  lemma SlotCases(q: Queue, t: Tx)
    requires Inv(q)
    ensures Has(q.byNonce, t.sender, t.nonce) ==>
              var n := q.byNonce[t.sender][t.nonce];
              && n in q.current && Sha3(q.current[n]) in q.byHash && At(q, t.sender, t.nonce) == Some(q.current[n])
              && q.current[n].sender == t.sender && q.current[n].nonce == t.nonce
              && !Has(q.future, t.sender, t.nonce)
    ensures Has(q.future, t.sender, t.nonce) ==>
              && At(q, t.sender, t.nonce) == Some(q.future[t.sender][t.nonce]) && t.sender in q.future
              && Inv(EraseFuture(q, t.sender, t.nonce)) && Vacated(q, EraseFuture(q, t.sender, t.nonce), t)
              && FutureWithin(q, EraseFuture(q, t.sender, t.nonce))
  {
    assert SlotLinked(q, t.sender, t.nonce) && FutureFiled(q, t.sender, t.nonce);
    if Has(q.byNonce, t.sender, t.nonce) {
      assert EntryLinked(q, q.byNonce[t.sender][t.nonce]);
    }
    if Has(q.future, t.sender, t.nonce) {
      EraseFutureAt(q, t.sender, t.nonce);
      EraseHas(q.future, t.sender, t.nonce, t.sender, t.nonce);
      StillCovered(q, EraseFuture(q, t.sender, t.nonce));
    }
  }

  lemma RemoveOne(q: Queue, h: Hash)
    requires Inv(q) && h in q.byHash
    ensures q.byHash[h] in q.current && q.current[q.byHash[h]] == h.tx && Has(q.byNonce, h.tx.sender, h.tx.nonce)
    ensures At(q, h.tx.sender, h.tx.nonce) == Some(h.tx)
    ensures var q' := Remove(q, q.byHash[h]).(known := q.known - {h});
            Inv(q') && Vacated(q, q', h.tx) && |q'.current| == |q.current| - 1
  {
    assert HashLinked(q, h);
    var n, t := q.byHash[h], h.tx;
    RemoveAtAll(q, n);
    var q1 := Remove(q, n);
    var q' := q1.(known := q.known - {h});
    EraseHas(q.byNonce, t.sender, t.nonce, t.sender, t.nonce);
    SameIndexes(q1, q');
    assert forall a, k :: At(q', a, k) == At(q1, a, k);
    RemovedCovered(q, q', t);
  }

  /** Soundness is not about the known and dropped sets. */
  lemma SameIndexes(q: Queue, q': Queue)
    requires Sound(q) && q' == q.(known := q'.known, dropped := q'.dropped)
    ensures Sound(q') && forall a, k :: At(q', a, k) == At(q, a, k)
  {
    forall n | n in q'.current
      ensures EntryLinked(q', n)
    {
      assert EntryLinked(q, n);
    }
    forall h | h in q'.byHash
      ensures HashLinked(q', h)
    {
      assert HashLinked(q, h);
    }
    forall a, k
      ensures SlotLinked(q', a, k) && FutureFiled(q', a, k)
    {
      assert SlotLinked(q, a, k) && FutureFiled(q, a, k);
    }
  }
}
