/** What every transaction, and every sequence of transactions in a block, conserves and respects. */
module TransactionProofs {
  import opened Words
  import opened Journal
  import opened Ether
  import opened Frames
  import opened FrameProofs
  import opened Transactions

  lemma {:induction false} TimesIsProduct(a: nat, b: nat)
    ensures Times(a, b) == a * b
  {
    if 0 < a {
      TimesIsProduct(a - 1, b);
    }
  }

  /** The 256-bit product of the code. */
  lemma ProductIs(a: u256, b: u256)
    ensures Product(a, b) == a * b % TWO_256
  {
    TimesIsProduct(a, b);
  }

  lemma ProductExact(a: u256, b: u256)
    requires a * b < TWO_256
    ensures Product(a, b) == a * b
  {
    TimesIsProduct(a, b);
    assert 0 <= a * b;
  }

  lemma ProductSplit(a: u256, b: u256, price: u256)
    requires a <= b && b * price < TWO_256
    ensures Product(a, price) + Product(b - a, price) == b * price
    ensures Product(a, price) == a * price && Product(b - a, price) == (b - a) * price
  {
    assert a * price + (b - a) * price == b * price;
    assert 0 <= a * price && 0 <= (b - a) * price;
    ProductExact(a, price);
    ProductExact(b - a, price);
  }

  // ---------------------------------------------------------------- killing

  ghost function Only(m: map<Address, Account>, s: set<Address>): map<Address, Account> {
    map a | a in m && a in s :: m[a]
  }

  lemma OnlySplit(m: map<Address, Account>, s: set<Address>, a: Address)
    requires a in m
    ensures Total(Only(m, s)) == (if a in s then m[a].balance else 0) + Total(Only(m - {a}, s))
  {
    if a in s {
      TotalSplit(Only(m, s), a);
      assert Only(m, s) - {a} == Only(m - {a}, s);
    } else {
      assert Only(m, s) == Only(m - {a}, s);
    }
  }

  /** `m'` is `m` with the balances of the accounts in `s` gone. */
  ghost predicate Emptied(m: map<Address, Account>, m': map<Address, Account>, s: set<Address>) {
    m'.Keys == m.Keys && forall a :: a in m ==> m'[a].balance == if a in s then 0 else m[a].balance
  }

  lemma EmptiedLess(m: map<Address, Account>, m': map<Address, Account>, s: set<Address>, a: Address)
    requires Emptied(m, m', s)
    ensures Emptied(m - {a}, m' - {a}, s)
  {
  }

  lemma {:induction false} KillTotal(m: map<Address, Account>, m': map<Address, Account>, s: set<Address>)
    requires Emptied(m, m', s)
    ensures Total(m') + Total(Only(m, s)) == Total(m)
    decreases m.Keys
  {
    if m == map[] {
      assert m' == map[] && Only(m, s) == map[];
    } else {
      var a :| a in m;
      TotalSplit(m, a);
      TotalSplit(m', a);
      OnlySplit(m, s, a);
      EmptiedLess(m, m', s, a);
      KillTotal(m - {a}, m' - {a}, s);
    }
  }

  lemma KillAllTotal(w: World, s: set<Address>)
    ensures Total(KillAll(w, s).accounts) + Held(w, s) == Total(w.accounts)
  {
    KillTotal(w.accounts, KillAll(w, s).accounts, s);
    assert Only(w.accounts, s) == map a | a in w.accounts && a in s :: w.accounts[a];
  }

  // ---------------------------------------------------------------- one transaction

  lemma TxCreateFrame(rules: Rules, w: World, tx: Tx, b: Behaviour) returns (w0: World, frame: Frame)
    requires Sound(w) && !NotEnoughCash(w, tx.sender, tx.value) && tx.baseGas <= tx.gas && tx.creation
    ensures frame == Outermost(rules, w, tx, b)
    ensures w0 == Bump(rules, w, tx.sender)
    ensures FrameSound(w0, StartGas(tx), frame, {})
  {
    w0, frame := CreateFrame(rules, w, tx.sender, b.newAddress, tx.value, StartGas(tx), 0, b.noInit, b.body);
  }

  lemma TxCallFrame(rules: Rules, w: World, tx: Tx, b: Behaviour) returns (w0: World, frame: Frame)
    requires Sound(w) && !NotEnoughCash(w, tx.sender, tx.value) && tx.baseGas <= tx.gas && !tx.creation
    ensures frame == Outermost(rules, w, tx, b)
    ensures w0 == Bump(rules, w, tx.sender)
    ensures FrameSound(w0, StartGas(tx), frame, Touched(rules, tx.to, StartGas(tx), b.pre))
  {
    w0 := Bump(rules, w, tx.sender);
    BumpSound(rules, w, tx.sender);
    BumpBalance(rules, w, tx.sender, tx.sender);
    frame := CallFrame(rules, w0, tx.sender, tx.to, tx.to, tx.value, StartGas(tx), 0, b.pre, b.body);
  }

  /** The accounts that a transaction whose outermost frame fails still touches in it. */
  function TouchedBy(rules: Rules, tx: Tx, b: Behaviour): set<Address>
    requires tx.baseGas <= tx.gas
  {
    if tx.creation then {} else Touched(rules, tx.to, StartGas(tx), b.pre)
  }

  lemma OutermostSound(rules: Rules, w: World, tx: Tx, b: Behaviour) returns (w0: World, frame: Frame)
    requires Sound(w) && !NotEnoughCash(w, tx.sender, tx.value) && tx.baseGas <= tx.gas
    ensures frame == Outermost(rules, w, tx, b)
    ensures w0 == Bump(rules, w, tx.sender) && Sound(w0) && Total(w0.accounts) == Total(w.accounts)
    ensures FrameSound(w0, StartGas(tx), frame, TouchedBy(rules, tx, b))
  {
    BumpSound(rules, w, tx.sender);
    if tx.creation {
      w0, frame := TxCreateFrame(rules, w, tx, b);
    } else {
      w0, frame := TxCallFrame(rules, w, tx, b);
    }
  }

  /** `cost` is what the gas was bought for. */
  lemma SettleTotal(env: Env, w: World, tx: Tx, left: u256, cost: nat)
    requires left <= tx.gas && Product(left, tx.gasPrice) + Product(tx.gas - left, tx.gasPrice) == cost
    requires Total(w.accounts) + cost < TWO_256
    ensures Total(Settle(env, w, tx, left).accounts) == Total(w.accounts) + cost
  {
    PaymentsTotal(w, tx.sender, Product(left, tx.gasPrice), env.author, Product(tx.gas - left, tx.gasPrice));
  }

  lemma PaymentsTotal(w: World, a: Address, x: u256, b: Address, y: u256)
    requires Total(w.accounts) + x + y < TWO_256
    ensures Total(AddBalance(AddBalance(w, a, x), b, y).accounts) == Total(w.accounts) + x + y
  {
    PaymentTotal(w, a, x);
    PaymentTotal(AddBalance(w, a, x), b, y);
  }

  lemma PaymentTotal(w: World, a: Address, x: u256)
    requires Total(w.accounts) + x < TWO_256
    ensures Total(AddBalance(w, a, x).accounts) == Total(w.accounts) + x
  {
    TotalCovers(w.accounts, a);
    AddBalanceTotal(w, a, x);
  }

  /** The sender of an accepted transaction can pay for its gas and, after that, for its value. */
  lemma AcceptedPays(rules: Rules, env: Env, w: World, tx: Tx)
    requires Verify(rules, env, w, tx).Accepted?
    ensures GasCost(tx) == tx.gas * tx.gasPrice
    ensures !NotEnoughCash(w, tx.sender, GasCost(tx))
    ensures !NotEnoughCash(SubBalance(w, tx.sender, GasCost(tx)), tx.sender, tx.value)
  {
    TimesIsProduct(tx.gas, tx.gasPrice);
    if tx.zeroSignature {
      assert tx.gasPrice == 0;
    } else {
      assert 0 <= tx.gas * tx.gasPrice;
      ProductExact(tx.gas, tx.gasPrice);
    }
    SubBalanceTotal(w, tx.sender, GasCost(tx));
  }

  /** Gas: what was bought is what is returned to the sender plus what the author earns. */
  lemma GasIsSettled(rules: Rules, env: Env, w: World, tx: Tx, left: u256)
    requires Verify(rules, env, w, tx).Accepted? && left <= tx.gas
    ensures GasCost(tx) == Product(left, tx.gasPrice) + Product(tx.gas - left, tx.gasPrice)
  {
    AcceptedPays(rules, env, w, tx);
    ProductSplit(left, tx.gas, tx.gasPrice);
  }

  lemma PaidSound(w: World, sender: Address, cost: u256)
    requires Sound(w) && !NotEnoughCash(w, sender, cost)
    ensures Sound(SubBalance(w, sender, cost))
  {
    SubBalanceTotal(w, sender, cost);
    if cost != 0 {
      AddBalanceSteps(w, sender, Neg(cost));
      StepsSound(w, AddBalance(w, sender, Neg(cost)));
    }
  }

  /** The end of a transaction, from what its outermost frame left. */
  lemma FinalizeTotal(env: Env, tx: Tx, frame: Frame, left: u256, cost: nat)
    requires frame.gas <= left <= tx.gas
    requires Product(left, tx.gasPrice) + Product(tx.gas - left, tx.gasPrice) == cost
    requires Total(frame.world.accounts) + cost < TWO_256
    ensures var r := Finalize(env, tx, frame, left);
            Total(r.world.accounts) + r.destroyed == Total(frame.world.accounts) + frame.burned + cost
  {
    var settled := Settle(env, frame.world, tx, left);
    assert Total(settled.accounts) == Total(frame.world.accounts) + cost by {
      SettleTotal(env, frame.world, tx, left, cost);
    }
    KillAllTotal(settled, frame.sub.suicides);
  }

  lemma RunTxIs(rules: Rules, env: Env, w: World, tx: Tx, b: Behaviour, frame: Frame)
    requires Verify(rules, env, w, tx).Accepted? && !NotEnoughCash(w, tx.sender, GasCost(tx))
    requires frame == Outermost(rules, PayForGas(w, tx), tx, b) && frame.gas <= tx.gas
    ensures RunTx(rules, env, w, tx, b) == Finalize(env, tx, frame, LeftAfter(rules, tx, frame))
  {
    assert RunTxBehind(LAYERS, rules, env, w, tx, b) == RunTxBehind(LAYERS - 1, rules, env, w, tx, b);
    assert RunTxBehind(LAYERS - 1, rules, env, w, tx, b) == RunTxBehind(LAYERS - 2, rules, env, w, tx, b);
  }

  /**
   Main result about transactions.  Whatever the machine does: every contract is met; ether is conserved but for what
   suicides destroy; no more gas is used than was bought, and with the refund at least the intrinsic gas; and the
   refund is at most half of what was consumed.
   */
  lemma TxConserves(rules: Rules, env: Env, w: World, tx: Tx, b: Behaviour)
    requires Sound(w) && Verify(rules, env, w, tx).Accepted?
    ensures var r := RunTx(rules, env, w, tx, b);
            && r.ok
            && Total(r.world.accounts) + r.destroyed == Total(w.accounts)
            && r.gasUsed <= tx.gas
            && tx.baseGas <= r.gasUsed + r.refunded
            && r.refunded <= r.gasUsed
  {
    AcceptedPays(rules, env, w, tx);
    SubBalanceTotal(w, tx.sender, GasCost(tx));
    PaidSound(w, tx.sender, GasCost(tx));
    var w0, frame := OutermostSound(rules, PayForGas(w, tx), tx, b);
    var left := LeftAfter(rules, tx, frame);
    GasIsSettled(rules, env, w, tx, left);
    FinalizeTotal(env, tx, frame, left, GasCost(tx));
    RunTxIs(rules, env, w, tx, b, frame);
  }

  lemma NoSubstate(rules: Rules, tx: Tx, frame: Frame, w: World)
    requires frame.gas <= tx.gas && frame.sub == NO_SUBSTATE
    ensures LeftAfter(rules, tx, frame) == frame.gas && Held(w, frame.sub.suicides) == 0
  {
    var held := map a | a in w.accounts && a in frame.sub.suicides :: w.accounts[a];
    assert held.Keys == {};
  }

  /** A transaction whose outermost frame fails leaves no logs, destroys nothing and earns no refund. */
  lemma FailedTx(rules: Rules, env: Env, w: World, tx: Tx, b: Behaviour)
    requires Sound(w) && Verify(rules, env, w, tx).Accepted?
    requires Outermost(rules, PayForGas(w, tx), tx, b).excepted != NoException
    ensures var r := RunTx(rules, env, w, tx, b);
            r.logs == [] && r.destroyed == 0 && r.refunded == 0
  {
    AcceptedPays(rules, env, w, tx);
    PaidSound(w, tx.sender, GasCost(tx));
    var w0, frame := OutermostSound(rules, PayForGas(w, tx), tx, b);
    NoSubstate(rules, tx, frame, Settle(env, frame.world, tx, LeftAfter(rules, tx, frame)));
    RunTxIs(rules, env, w, tx, b, frame);
  }

  // ---------------------------------------------------------------- a block

  /** `m'` is `m` but for accounts without ether that are gone, as far as balances go. */
  ghost predicate Dropped(m: map<Address, Account>, m': map<Address, Account>) {
    m'.Keys <= m.Keys && forall a {:trigger DroppedAt(m, m', a)} :: a in m ==> DroppedAt(m, m', a)
  }

  ghost predicate DroppedAt(m: map<Address, Account>, m': map<Address, Account>, a: Address)
    requires a in m
  {
    m[a].balance == if a in m' then m'[a].balance else 0
  }

  lemma DroppedLess(m: map<Address, Account>, m': map<Address, Account>, a: Address)
    requires a in m && Dropped(m, m')
    ensures DroppedAt(m, m', a) && Dropped(m - {a}, m' - {a})
  {
    forall b {:trigger DroppedAt(m - {a}, m' - {a}, b)} | b in m - {a}
      ensures DroppedAt(m - {a}, m' - {a}, b)
    {
      assert DroppedAt(m, m', b);
    }
  }

  /** Accounts without ether come and go without changing the total. */
  lemma {:induction false} TotalDrop(m: map<Address, Account>, m': map<Address, Account>)
    requires Dropped(m, m')
    ensures Total(m') == Total(m)
    decreases m.Keys
  {
    if m == map[] {
      assert m' == map[];
    } else {
      var a :| a in m;
      TotalSplit(m, a);
      DroppedLess(m, m', a);
      TotalDrop(m - {a}, m' - {a});
      if a in m' {
        TotalSplit(m', a);
      } else {
        assert m' - {a} == m';
      }
    }
  }

  ghost predicate NoDeadEther(w: World) {
    forall a :: a in w.accounts && !w.accounts[a].alive ==> w.accounts[a].balance == 0
  }

  lemma CommitSound(w: World, removeEmpty: bool)
    requires NoDeadEther(w)
    ensures Total(Commit(w, removeEmpty).accounts) == Total(w.accounts)
    ensures Undoable(Commit(w, removeEmpty)) && Tidy(Commit(w, removeEmpty))
  {
    TotalDrop(w.accounts, Commit(w, removeEmpty).accounts);
    assert UndoableNow(Commit(w, removeEmpty));
  }

  lemma SettleAlive(env: Env, w: World, tx: Tx, left: u256)
    requires left <= tx.gas && Tidy(w)
    ensures AllAlive(Settle(env, w, tx, left))
  {
    TidyAlive(w);
    AddBalanceAlive(w, tx.sender, Product(left, tx.gasPrice));
    AddBalanceAlive(AddBalance(w, tx.sender, Product(left, tx.gasPrice)), env.author,
                    Product(tx.gas - left, tx.gasPrice));
  }

  lemma TidyAlive(w: World)
    requires Tidy(w)
    ensures AllAlive(w)
  {
    forall a | a in w.accounts
      ensures w.accounts[a].alive
    {
      assert TidyAt(w, a);
    }
  }

  lemma AddBalanceAlive(w: World, a: Address, v: u256)
    requires AllAlive(w)
    ensures AllAlive(AddBalance(w, a, v))
  {
  }

  ghost predicate AllAlive(w: World) { forall a :: a in w.accounts ==> w.accounts[a].alive }

  lemma KillAllNoDeadEther(w: World, s: set<Address>)
    requires AllAlive(w)
    ensures NoDeadEther(KillAll(w, s))
  {
  }

  lemma FinalizeNoDeadEther(env: Env, tx: Tx, frame: Frame, left: u256)
    requires frame.gas <= left <= tx.gas && Tidy(frame.world)
    ensures NoDeadEther(Finalize(env, tx, frame, left).world)
  {
    var settled := Settle(env, frame.world, tx, left);
    assert AllAlive(settled) by { SettleAlive(env, frame.world, tx, left); }
    KillAllNoDeadEther(settled, frame.sub.suicides);
  }

  /** Only accounts that have been killed are dead, and they hold nothing. */
  lemma TxLeavesNoDeadEther(rules: Rules, env: Env, w: World, tx: Tx, b: Behaviour)
    requires Sound(w) && Verify(rules, env, w, tx).Accepted?
    ensures NoDeadEther(RunTx(rules, env, w, tx, b).world)
  {
    AcceptedPays(rules, env, w, tx);
    PaidSound(w, tx.sender, GasCost(tx));
    var w0, frame := OutermostSound(rules, PayForGas(w, tx), tx, b);
    StepsSound(w0, frame.world);
    FinalizeNoDeadEther(env, tx, frame, LeftAfter(rules, tx, frame));
    RunTxIs(rules, env, w, tx, b, frame);
  }

  ghost predicate Increasing(from: nat, receipts: seq<u256>, limit: nat)
    decreases |receipts|
  {
    if receipts == [] then from <= limit else from < receipts[0] && Increasing(receipts[0], receipts[1..], limit)
  }

  /** A transaction that was executed and committed. */
  lemma CommittedConserves(rules: Rules, env: Env, w: World, tx: Tx, b: Behaviour)
    requires Sound(w) && Verify(rules, env, w, tx).Accepted? && 0 < tx.baseGas
    ensures var r := RunTx(rules, env, w, tx, b);
            && Total(Commit(r.world, rules.eip158).accounts) + r.destroyed == Total(w.accounts)
            && Sound(Commit(r.world, rules.eip158))
            && env.gasUsed < Add(env.gasUsed, r.gasUsed) <= env.gasLimit
  {
    var r := RunTx(rules, env, w, tx, b);
    TxConserves(rules, env, w, tx, b);
    TxLeavesNoDeadEther(rules, env, w, tx, b);
    CommitSound(r.world, rules.eip158);
  }

  /**
   Main result about blocks: over any sequence of transactions the cumulative gas of the receipts strictly increases
   and never exceeds the gas limit of the block, and ether is conserved but for what suicides destroy.
   */
  lemma {:induction false} BlockConserves(rules: Rules, env: Env, w: World, steps: seq<Step>)
    requires Sound(w) && env.gasUsed <= env.gasLimit
    requires forall i :: 0 <= i < |steps| ==> 0 < steps[i].tx.baseGas
    ensures var r := RunAll(rules, env, w, steps);
            && Increasing(env.gasUsed, r.receipts, env.gasLimit)
            && Total(r.world.accounts) + r.destroyed == Total(w.accounts)
            && Sound(r.world)
    decreases |steps|
  {
    if steps != [] {
      var tx, b := steps[0].tx, steps[0].behaviour;
      if Verify(rules, env, w, tx).Refused? {
        BlockConserves(rules, env, w, steps[1..]);
      } else {
        var r := RunTx(rules, env, w, tx, b);
        CommittedConserves(rules, env, w, tx, b);
        BlockConserves(rules, env.(gasUsed := Add(env.gasUsed, r.gasUsed)), Commit(r.world, rules.eip158), steps[1..]);
      }
    }
  }
}
