/**
 Rolling back to a savepoint gives back the world of the savepoint, whatever mutations happened since.
 */
module JournalUndo {
  import opened Words
  import opened Journal

  /** `r` is `w` again, except that accounts may have become dirty. */
  ghost predicate SameWorld(w: World, r: World) {
    && r.accounts == w.accounts && r.log == w.log && r.trie == w.trie && r.startNonce == w.startNonce
    && w.dirty <= r.dirty <= w.accounts.Keys
  }

  /** `w1` was reached from `w0` by changes that `rollback` to `w0`'s savepoint takes back. */
  ghost predicate Reverts(w0: World, w1: World) {
    && Undoable(w0) && Undoable(w1)
    && |w0.log| <= |w1.log|
    && SameWorld(w0, Rollback(w1, |w0.log|))
    && w0.accounts.Keys <= w1.accounts.Keys && w0.dirty <= w1.dirty
  }

  lemma UndoableParts(w: World)
    requires Undoable(w)
    ensures CleanAgrees(w)
    ensures w.log != [] ==> CanUndo(w) && w.log[|w.log| - 1].addr in w.dirty && Undoable(Undo(w))
  {
    assert UndoableNow(w);
  }

  // ---------------------------------------------------------------- composing

  /** Extra dirty marks never disturb an undo. */
  lemma {:induction false} UndoWithMoreDirt(w: World, v: World, n: nat)
    requires Undoable(w) && SameWorld(w, v) && n <= |w.log|
    ensures Undoable(v)
    ensures SameWorld(Rollback(w, n), Rollback(v, n))
    decreases |w.log|
  {
    if w.log != [] {
      assert SameWorld(Undo(w), Undo(v));
      UndoWithMoreDirt(Undo(w), Undo(v), if n < |w.log| then n else n - 1);
    }
  }

  lemma {:induction false} RollbackTwice(w: World, m: nat, n: nat)
    requires Undoable(w) && n <= m <= |w.log|
    ensures Rollback(Rollback(w, m), n) == Rollback(w, n)
    decreases |w.log|
  {
    if m < |w.log| {
      RollbackTwice(Undo(w), m, n);
    }
  }

  lemma {:induction false} UnwindIsRollback(w: World, n: nat)
    requires Undoable(w) && n <= |w.log|
    ensures Unwind(w, n) == Rollback(w, n)
    decreases |w.log|
  {
    UndoableParts(w);
    if n < |w.log| {
      UnwindIsRollback(Undo(w), n);
    }
  }

  lemma RevertsRefl(w: World)
    requires Undoable(w)
    ensures Reverts(w, w)
  {
  }

  lemma RevertsTrans(w0: World, w1: World, w2: World)
    requires Reverts(w0, w1) && Reverts(w1, w2)
    ensures Reverts(w0, w2)
  {
    RollbackTwice(w2, |w1.log|, |w0.log|);
    UndoWithMoreDirt(w1, Rollback(w2, |w1.log|), |w0.log|);
  }

  /** A single logged change whose undo gives the old accounts back. */
  lemma OneChange(w: World, v: World, c: Change)
    requires Undoable(w) && CleanAgrees(v) && v.log == w.log + [c]
    requires c.addr in v.accounts && c.addr in v.dirty && SameWorld(w, UndoChange(v.(log := w.log), c))
    requires w.accounts.Keys <= v.accounts.Keys && w.dirty <= v.dirty
    ensures Reverts(w, v)
  {
    assert v.log[..|w.log|] == w.log;
    assert Undo(v) == UndoChange(v.(log := w.log), c);
    UndoWithMoreDirt(w, Undo(v), |w.log|);
    assert Rollback(v, |w.log|) == Undo(v);
  }

  // ---------------------------------------------------------------- each mutator

  lemma CreateReverts(w: World, a: Address, nonce: u256, balance: u256)
    requires Undoable(w) && a !in w.accounts
    ensures Reverts(w, w.Put(a, NewAccount(nonce, balance), [Create(a)]))
  {
    var v := w.Put(a, NewAccount(nonce, balance), [Create(a)]);
    var u := UndoChange(v.(log := w.log), Create(a));
    assert u.accounts == w.accounts;
    assert u.dirty == w.dirty;
    OneChange(w, v, Create(a));
  }

  /** A change that overwrites an existing account and whose undo writes the old account back. */
  lemma OverwriteReverts(w: World, a: Address, acct: Account, c: Change, dirty: set<Address>)
    requires Undoable(w) && a in w.accounts && c.addr == a
    requires w.dirty + {a} == dirty
    requires var v := w.(accounts := w.accounts[a := acct], dirty := dirty);
             UndoChange(v, c).accounts == v.accounts[a := w.accounts[a]] && UndoChange(v, c).dirty == dirty
    ensures Reverts(w, w.(accounts := w.accounts[a := acct], dirty := dirty, log := w.log + [c]))
  {
    var v := w.(accounts := w.accounts[a := acct], dirty := dirty, log := w.log + [c]);
    assert w.accounts[a := acct][a := w.accounts[a]] == w.accounts;
    assert v.(log := w.log) == w.(accounts := w.accounts[a := acct], dirty := dirty);
    OneChange(w, v, c);
  }

  lemma NonceReverts(w: World, a: Address, n: u256)
    requires Undoable(w) && a in w.accounts
    ensures Reverts(w, w.Put(a, w.accounts[a].(nonce := n), [Nonce(a, w.accounts[a].nonce)]))
  {
    var c := Nonce(a, w.accounts[a].nonce);
    OverwriteReverts(w, a, w.accounts[a].(nonce := n), c, w.dirty + {a});
  }

  lemma IncNonceReverts(w: World, a: Address)
    requires Undoable(w)
    ensures Reverts(w, IncNonce(w, a))
  {
    if a in w.accounts {
      NonceReverts(w, a, Add(w.accounts[a].nonce, 1));
    } else {
      CreateReverts(w, a, Add(w.startNonce, 1), 0);
    }
  }

  lemma SetNonceReverts(w: World, a: Address, n: u256)
    requires Undoable(w)
    ensures Reverts(w, SetNonce(w, a, n))
  {
    if a in w.accounts {
      NonceReverts(w, a, n);
    } else {
      CreateReverts(w, a, n, 0);
    }
  }

  lemma TouchReverts(w: World, a: Address)
    requires Undoable(w) && a in w.accounts && a !in w.dirty
    ensures Reverts(w, w.Put(a, w.accounts[a], [Touch(a)]))
  {
    var v := w.Put(a, w.accounts[a], [Touch(a)]);
    assert v.accounts == w.accounts;
    OneChange(w, v, Touch(a));
  }

  lemma AmountReverts(w: World, a: Address, v: u256)
    requires Undoable(w) && a in w.accounts
    ensures Reverts(w, w.Put(a, w.accounts[a].(balance := Add(w.accounts[a].balance, v)), AmountLogged(a, v)))
  {
    if v == 0 {
      MarkReverts(w, a);
    } else {
      AddNeg(w.accounts[a].balance, v);
      OverwriteReverts(w, a, w.accounts[a].(balance := Add(w.accounts[a].balance, v)), Balance(a, v), w.dirty + {a});
    }
  }

  lemma MarkReverts(w: World, a: Address)
    requires Undoable(w) && a in w.accounts
    ensures Reverts(w, w.Put(a, w.accounts[a], []))
  {
    var x := w.Put(a, w.accounts[a], []);
    assert x.accounts == w.accounts && x.log == w.log;
    UndoWithMoreDirt(w, x, |w.log|);
  }

  /** The world between the existence/touch entry and the amount entry of an `addBalance`. */
  function BeforeAmount(w: World, a: Address): World {
    if a !in w.accounts then w.Put(a, NewAccount(w.startNonce, 0), [Create(a)])
    else if a !in w.dirty && w.accounts[a].IsEmpty() then w.Put(a, w.accounts[a], [Touch(a)])
    else w
  }

  lemma AddBalanceInTwoSteps(w: World, a: Address, v: u256)
    ensures var b := BeforeAmount(w, a);
            AddBalance(w, a, v)
            == b.Put(a, b.accounts[a].(balance := Add(b.accounts[a].balance, v)), AmountLogged(a, v))
  {
    var b := BeforeAmount(w, a);
    var r := b.Put(a, b.accounts[a].(balance := Add(b.accounts[a].balance, v)), AmountLogged(a, v));
    assert AddBalance(w, a, v).log == r.log;
    assert AddBalance(w, a, v).accounts == r.accounts;
    assert AddBalance(w, a, v).dirty == r.dirty;
  }

  lemma AddBalanceReverts(w: World, a: Address, v: u256)
    requires Undoable(w)
    ensures Reverts(w, AddBalance(w, a, v))
  {
    var b := BeforeAmount(w, a);
    AddBalanceInTwoSteps(w, a, v);
    assert Reverts(w, b) by {
      if a !in w.accounts {
        CreateReverts(w, a, w.startNonce, 0);
      } else if a !in w.dirty && w.accounts[a].IsEmpty() {
        TouchReverts(w, a);
      }
    }
    AmountReverts(b, a, v);
    RevertsTrans(w, b, AddBalance(w, a, v));
  }

  lemma SubBalanceReverts(w: World, a: Address, v: u256)
    requires Undoable(w) && !NotEnoughCash(w, a, v)
    ensures Reverts(w, SubBalance(w, a, v))
  {
    if v != 0 {
      AddBalanceReverts(w, a, Neg(v));
    }
  }

  lemma PutSlotBack(s: Storage, k: u256, v: u256)
    ensures PutSlot(PutSlot(s, k, v), k, Slot(s, k)) == s
  {
  }

  lemma SetStorageReverts(w: World, a: Address, k: u256, v: u256)
    requires Undoable(w) && a in w.accounts
    ensures Reverts(w, SetStorage(w, a, k, v))
  {
    var s := w.accounts[a].storage;
    PutSlotBack(s, k, v);
    var acct := w.accounts[a].(storage := PutSlot(s, k, v));
    OverwriteReverts(w, a, acct, StorageSlot(a, k, Slot(s, k)), w.dirty + {a});
  }

  /** Nothing was written over the base storage, or there is no base storage to clear. */
  predicate MayClear(w: World, a: Address) {
    a in w.accounts && (w.accounts[a].base == map[] || w.accounts[a].storage == w.accounts[a].base)
  }

  lemma ClearStorageReverts(w: World, a: Address)
    requires Undoable(w) && MayClear(w, a)
    ensures Reverts(w, ClearStorage(w, a))
  {
    if w.accounts[a].base != map[] {
      var acct := w.accounts[a];
      OverwriteReverts(w, a, acct.(base := map[], storage := map[]), StorageRoot(a, acct.base), w.dirty + {a});
    }
  }

  lemma SetCodeReverts(w: World, a: Address, code: Bytes)
    requires Undoable(w) && a in w.accounts && a in w.dirty
    ensures Reverts(w, SetCode(w, a, code))
  {
    var acct, c := w.accounts[a], Code(a, w.accounts[a].code);
    var v := w.(accounts := w.accounts[a := acct.(code := code)]);
    CodeUndone(w, v, a, acct, code);
    assert w.dirty + {a} == w.dirty && v.(dirty := w.dirty) == v;
    OverwriteReverts(w, a, acct.(code := code), c, w.dirty);
  }

  lemma CodeUndone(w: World, v: World, a: Address, acct: Account, code: Bytes)
    requires a in w.accounts && acct == w.accounts[a] && v == w.(accounts := w.accounts[a := acct.(code := code)])
    ensures UndoChange(v, Code(a, acct.code)).accounts == v.accounts[a := acct]
    ensures UndoChange(v, Code(a, acct.code)).dirty == w.dirty
  {
    assert v.accounts[a].(code := acct.code) == acct;
  }

  // ---------------------------------------------------------------- whole runs

  datatype Op =
    | OpIncNonce(a: Address)
    | OpSetNonce(a: Address, n: u256)
    | OpAddBalance(a: Address, v: u256)
    | OpSubBalance(a: Address, v: u256)
    | OpSetBalance(a: Address, v: u256)
    | OpSetStorage(a: Address, k: u256, v: u256)
    | OpClearStorage(a: Address)
    | OpSetCode(a: Address, code: Bytes)

  /** What the callers of each mutator guarantee; everything else is unrestricted. */
  predicate Contract(w: World, op: Op) {
    match op
    case OpSetStorage(a, _, _) => a in w.accounts
    case OpClearStorage(a) => MayClear(w, a)
    case OpSetCode(a, _) => a in w.accounts && a in w.dirty
    case _ => true
  }

  /** An overdrawn subBalance throws before it changes anything. */
  function Step(w: World, op: Op): World
    requires Contract(w, op)
  {
    match op
    case OpIncNonce(a) => IncNonce(w, a)
    case OpSetNonce(a, n) => SetNonce(w, a, n)
    case OpAddBalance(a, v) => AddBalance(w, a, v)
    case OpSubBalance(a, v) => if NotEnoughCash(w, a, v) then w else SubBalance(w, a, v)
    case OpSetBalance(a, v) => SetBalance(w, a, v)
    case OpSetStorage(a, k, v) => SetStorage(w, a, k, v)
    case OpClearStorage(a) => ClearStorage(w, a)
    case OpSetCode(a, code) => SetCode(w, a, code)
  }

  predicate Legal(w: World, ops: seq<Op>)
    decreases |ops|
  {
    ops == [] || (Contract(w, ops[0]) && Legal(Step(w, ops[0]), ops[1..]))
  }

  function Run(w: World, ops: seq<Op>): World
    requires Legal(w, ops)
    decreases |ops|
  {
    if ops == [] then w else Run(Step(w, ops[0]), ops[1..])
  }

  lemma StepReverts(w: World, op: Op)
    requires Undoable(w) && Contract(w, op)
    ensures Reverts(w, Step(w, op))
  {
    match op
    case OpIncNonce(a) => IncNonceReverts(w, a);
    case OpSetNonce(a, n) => SetNonceReverts(w, a, n);
    case OpAddBalance(a, v) => AddBalanceReverts(w, a, v);
    case OpSubBalance(a, v) => if !NotEnoughCash(w, a, v) { SubBalanceReverts(w, a, v); }
    case OpSetBalance(a, v) => AddBalanceReverts(w, a, Sub(v, w.BalanceOf(a)));
    case OpSetStorage(a, k, v) => SetStorageReverts(w, a, k, v);
    case OpClearStorage(a) => ClearStorageReverts(w, a);
    case OpSetCode(a, code) => SetCodeReverts(w, a, code);
  }

  lemma {:induction false} RunReverts(w: World, ops: seq<Op>)
    requires Undoable(w) && Legal(w, ops)
    ensures Reverts(w, Run(w, ops))
    decreases |ops|
  {
    if ops != [] {
      StepReverts(w, ops[0]);
      RunReverts(Step(w, ops[0]), ops[1..]);
      RevertsTrans(w, Step(w, ops[0]), Run(w, ops));
    }
  }

  /**
   Main result: after any sequence of mutations, rollback to the savepoint restores which accounts exist
   and every nonce, balance, code, storage root and storage slot.
   */
  lemma RollbackRestores(w: World, ops: seq<Op>)
    requires Undoable(w) && Legal(w, ops)
    ensures Undoable(Run(w, ops)) && |w.log| <= |Run(w, ops).log|
    ensures var r := Rollback(Run(w, ops), |w.log|);
            r.accounts == w.accounts && r.log == w.log && r.startNonce == w.startNonce
  {
    RunReverts(w, ops);
  }

  /**
   The contract on clearStorage cannot be weakened: its undo gives the accounts back exactly when the contract
   holds.  And it does clear, except that an account without a base storage keeps what was written to it.
   */
  lemma ClearStorageExact(w: World, a: Address)
    requires a in w.accounts
    ensures var x := ClearStorage(w, a);
            && (x.log == w.log ==> x == w)
            && (x.log != w.log ==> CanUndo(x) && (Undo(x).accounts == w.accounts <==> MayClear(w, a)))
            && (x.accounts[a].storage == map[] <==>
                  w.accounts[a].base != map[] || w.accounts[a].storage == map[])
  {
    var x := ClearStorage(w, a);
    var acct := w.accounts[a];
    if acct.base != map[] {
      assert x.log[|w.log|] == StorageRoot(a, acct.base);
      assert Undo(x).accounts == w.accounts[a := acct.(storage := acct.base)];
      if MayClear(w, a) {
        assert Undo(x).accounts == w.accounts;
      } else {
        assert Undo(x).accounts[a] != w.accounts[a];
      }
    }
  }

  // ---------------------------------------------------------------- touches

  /** Does `op` mark the clean, empty account `acct` dirty?  (subBalance refuses, setCode is not allowed.) */
  predicate Marks(acct: Account, op: Op) {
    match op
    case OpSubBalance(_, _) => false
    case OpSetCode(_, _) => false
    case OpClearStorage(_) => acct.base != map[]
    case _ => true
  }

  predicate Adds(op: Op) { op.OpAddBalance? || op.OpSetBalance? }

  /** Is the first of `ops` that marks `a` dirty something other than a balance change? */
  predicate MarkedOtherwise(acct: Account, a: Address, ops: seq<Op>)
    decreases |ops|
  {
    ops != [] && if ops[0].a == a && Marks(acct, ops[0]) then !Adds(ops[0]) else MarkedOtherwise(acct, a, ops[1..])
  }

  ghost predicate CleanEmpty(w: World, a: Address) { a in w.accounts && a !in w.dirty && w.accounts[a].IsEmpty() }

  /** Undoing changes to other accounts leaves the dirty mark of `a` alone. */
  lemma {:induction false} DirtOfOthers(v: World, n: nat, a: Address)
    requires Undoable(v) && n <= |v.log|
    requires forall i :: n <= i < |v.log| ==> v.log[i].addr != a
    ensures a in Rollback(v, n).dirty <==> a in v.dirty
    decreases |v.log|
  {
    if n < |v.log| {
      DirtOfOthers(Undo(v), n, a);
    }
  }

  /** Log entries written by one step, all about the account it names. */
  lemma StepLog(w: World, op: Op)
    requires Contract(w, op)
    ensures LogsAbout(w, Step(w, op), op.a)
  {
    if op.OpAddBalance? || op.OpSubBalance? || op.OpSetBalance? {
      BalanceStepLog(w, op);
    } else {
      OtherStepLog(w, op);
    }
  }

  ghost predicate LogsAbout(w: World, w': World, a: Address) {
    && |w.log| <= |w'.log| && w'.log[..|w.log|] == w.log
    && forall i :: |w.log| <= i < |w'.log| ==> w'.log[i].addr == a
  }

  lemma BalanceStepLog(w: World, op: Op)
    requires Contract(w, op) && (op.OpAddBalance? || op.OpSubBalance? || op.OpSetBalance?)
    ensures LogsAbout(w, Step(w, op), op.a)
  {
  }

  lemma OtherStepLog(w: World, op: Op)
    requires Contract(w, op) && !op.OpAddBalance? && !op.OpSubBalance? && !op.OpSetBalance?
    ensures LogsAbout(w, Step(w, op), op.a)
  {
  }

  /** A step that leaves a clean empty account clean has not changed it. */
  lemma UnmarkedStep(w: World, op: Op, a: Address)
    requires Contract(w, op) && CleanEmpty(w, a) && !(op.a == a && Marks(w.accounts[a], op))
    ensures CleanEmpty(Step(w, op), a) && Step(w, op).accounts[a] == w.accounts[a]
    ensures op.a == a ==> Step(w, op) == w
  {
  }

  lemma UndoTouch(w: World, v: World, a: Address, amount: u256)
    requires CleanEmpty(w, a) && Undoable(v) && a in v.dirty
    requires v.log == w.log + [Touch(a)] + AmountLogged(a, amount)
    ensures a !in Rollback(v, |w.log|).dirty
  {
    var u := if amount == 0 then v else Undo(v);
    assert u.log == w.log + [Touch(a)];
    assert u.log[|w.log|] == Touch(a);
    assert Rollback(u, |w.log|) == Undo(u);
  }

  lemma UndoMark(w: World, v: World, c: Change)
    requires Undoable(v) && v.log == w.log + [c] && !c.Touch? && !c.Create?
    ensures c.addr in Rollback(v, |w.log|).dirty
  {
    assert v.log[|w.log|] == c;
    assert Rollback(v, |w.log|) == Undo(v);
  }

  lemma UndoMarkingStep(w: World, op: Op, v: World)
    requires Contract(w, op) && CleanEmpty(w, op.a) && Marks(w.accounts[op.a], op)
    requires Undoable(v) && SameWorld(Step(w, op), v)
    ensures op.a in Rollback(v, |w.log|).dirty <==> !Adds(op)
  {
    if Adds(op) {
      var v' := if op.OpAddBalance? then op.v else Sub(op.v, 0);
      assert w.BalanceOf(op.a) == 0;
      assert v.log == w.log + ([Touch(op.a)] + AmountLogged(op.a, v'))
             == w.log + [Touch(op.a)] + AmountLogged(op.a, v');
      UndoTouch(w, v, op.a, v');
    } else {
      UndoMark(w, v, v.log[|w.log|]);
    }
  }

  lemma {:induction false} DirtAfterRollback(w: World, ops: seq<Op>, a: Address)
    requires Undoable(w) && Legal(w, ops) && CleanEmpty(w, a)
    ensures Undoable(Run(w, ops)) && |w.log| <= |Run(w, ops).log|
    ensures a in Rollback(Run(w, ops), |w.log|).dirty <==> MarkedOtherwise(w.accounts[a], a, ops)
    decreases |ops|
  {
    RunReverts(w, ops);
    if ops != [] {
      var op, rest, w' := ops[0], ops[1..], Step(w, ops[0]);
      StepReverts(w, op);
      RunReverts(w', rest);
      var r' := Rollback(Run(w', rest), |w'.log|);
      RollbackTwice(Run(w', rest), |w'.log|, |w.log|);
      if op.a == a && Marks(w.accounts[a], op) {
        UndoMarkingStep(w, op, r');
      } else {
        UnmarkedStep(w, op, a);
        DirtAfterRollback(w', rest, a);
        StepLog(w, op);
        DirtOfOthers(r', |w.log|, a);
      }
    }
  }

  /**
   Rollback also takes touches back, so that an account touched only in a reverted frame is not removed as empty:
   the accounts removeEmptyAccounts would kill are those of the savepoint exactly when every clean empty account
   that was changed since was changed by a balance operation first.
   */
  lemma RollbackUndoesTouches(w: World, ops: seq<Op>)
    requires Undoable(w) && Legal(w, ops)
    ensures Undoable(Run(w, ops)) && |w.log| <= |Run(w, ops).log|
    ensures Rollback(Run(w, ops), |w.log|).DirtyEmpty() == w.DirtyEmpty() <==>
            (forall a :: CleanEmpty(w, a) ==> !MarkedOtherwise(w.accounts[a], a, ops))
  {
    RunReverts(w, ops);
    var r := Rollback(Run(w, ops), |w.log|);
    forall a | CleanEmpty(w, a)
      ensures a in r.DirtyEmpty() <==> MarkedOtherwise(w.accounts[a], a, ops)
    {
      DirtAfterRollback(w, ops, a);
    }
    if forall a :: CleanEmpty(w, a) ==> !MarkedOtherwise(w.accounts[a], a, ops) {
      assert r.DirtyEmpty() == w.DirtyEmpty();
    }
  }

  // ---------------------------------------------------------------- touches, without the run

  /** Rolling `w1` back to `w0`'s savepoint leaves no clean empty account of `w0` marked dirty. */
  ghost predicate Unmarks(w0: World, w1: World) {
    && Undoable(w1) && |w0.log| <= |w1.log|
    && forall a {:trigger UnmarksAt(w0, w1, a)} :: UnmarksAt(w0, w1, a)
  }

  ghost predicate UnmarksAt(w0: World, w1: World, a: Address)
    requires Undoable(w1) && |w0.log| <= |w1.log|
  {
    CleanEmpty(w0, a) ==> a !in Rollback(w1, |w0.log|).dirty
  }

  /** Marking first by a balance operation, or nothing that is clean and empty, is what the rollback takes back. */
  lemma OpUnmarks(w: World, op: Op)
    requires Undoable(w) && Contract(w, op) && (Adds(op) || op.OpSubBalance? || !CleanEmpty(w, op.a))
    ensures Unmarks(w, Step(w, op))
  {
    StepReverts(w, op);
    assert Run(w, [op]) == Step(w, op);
    forall a
      ensures UnmarksAt(w, Step(w, op), a)
    {
      if CleanEmpty(w, a) {
        DirtAfterRollback(w, [op], a);
        assert !MarkedOtherwise(w.accounts[a], a, []);
      }
    }
  }

  lemma {:induction false} LoggedIsDirty(w: World, i: nat)
    requires Undoable(w) && i < |w.log|
    ensures w.log[i].addr in w.dirty
    decreases |w.log|
  {
    UndoableParts(w);
    if i < |w.log| - 1 {
      LoggedIsDirty(Undo(w), i);
    }
  }

  /** Whether an account is dirty after a rollback does not depend on other dirty marks. */
  lemma {:induction false} SameDirt(w: World, v: World, n: nat, a: Address)
    requires Undoable(w) && Undoable(v) && SameWorld(w, v) && n <= |w.log| && (a in w.dirty <==> a in v.dirty)
    ensures a in Rollback(w, n).dirty <==> a in Rollback(v, n).dirty
    decreases |w.log|
  {
    if n < |w.log| {
      assert SameWorld(Undo(w), Undo(v));
      SameDirt(Undo(w), Undo(v), n, a);
    }
  }

  /** An account that is still clean has not changed. */
  lemma StillClean(w0: World, w1: World, a: Address)
    requires Reverts(w0, w1) && a in w0.accounts && a !in w1.dirty
    ensures a in w1.accounts && w1.accounts[a] == w0.accounts[a] && a !in w0.dirty
  {
    UndoableParts(w0);
    UndoableParts(w1);
  }

  lemma UnmarksRefl(w: World)
    requires Undoable(w)
    ensures Unmarks(w, w)
  {
  }

  lemma UnmarksTransAt(w0: World, w1: World, w2: World, a: Address)
    requires Reverts(w0, w1) && Reverts(w1, w2) && Unmarks(w0, w1) && Unmarks(w1, w2) && CleanEmpty(w0, a)
    ensures a !in Rollback(w2, |w0.log|).dirty
  {
    var x := Rollback(w2, |w1.log|);
    RollbackTwice(w2, |w1.log|, |w0.log|);
    assert UnmarksAt(w0, w1, a) && UnmarksAt(w1, w2, a);
    if a in w1.dirty {
      SameDirt(w1, x, |w0.log|, a);
    } else {
      StillClean(w0, w1, a);
      forall i | |w0.log| <= i < |x.log|
        ensures x.log[i].addr != a
      {
        LoggedIsDirty(x, i);
      }
      DirtOfOthers(x, |w0.log|, a);
    }
  }

  lemma UnmarksTrans(w0: World, w1: World, w2: World)
    requires Reverts(w0, w1) && Reverts(w1, w2) && Unmarks(w0, w1) && Unmarks(w1, w2)
    ensures Unmarks(w0, w2)
  {
    RevertsTrans(w0, w1, w2);
    forall a
      ensures UnmarksAt(w0, w2, a)
    {
      if CleanEmpty(w0, a) {
        UnmarksTransAt(w0, w1, w2, a);
      }
    }
  }

  /** After the rollback the accounts that removeEmptyAccounts would kill are those of the savepoint. */
  lemma UnmarksIsSameDirt(w0: World, w1: World)
    requires Reverts(w0, w1)
    ensures Unmarks(w0, w1) <==> Rollback(w1, |w0.log|).DirtyEmpty() == w0.DirtyEmpty()
  {
    var r := Rollback(w1, |w0.log|);
    if Unmarks(w0, w1) {
      forall a
        ensures a in r.DirtyEmpty() <==> a in w0.DirtyEmpty()
      {
        assert UnmarksAt(w0, w1, a);
      }
    }
    if r.DirtyEmpty() == w0.DirtyEmpty() {
      forall a
        ensures UnmarksAt(w0, w1, a)
      {
        assert a in r.DirtyEmpty() <==> a in w0.DirtyEmpty();
      }
    }
  }
}
