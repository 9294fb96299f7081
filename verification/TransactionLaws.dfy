/** What a transaction costs, pays and leaves, as numbers and told without the functions that run it. */
module TransactionLaws {
  import opened Words
  import opened Journal
  import opened Ether
  import opened WorldLaws
  import opened Frames
  import opened FrameProofs
  import opened FrameLaws
  import opened Transactions
  import opened TransactionProofs

  // ---------------------------------------------------------------- checks

  /** A transaction is accepted exactly if all of this holds. */
  lemma AcceptedIs(rules: Rules, env: Env, w: World, tx: Tx)
    ensures Verify(rules, env, w, tx).Accepted? <==>
              && (tx.zeroSignature ==> rules.constantinople && tx.value == 0 && tx.gasPrice == 0 && tx.nonce == 0)
              && tx.baseGas <= tx.gas && env.gasUsed + tx.gas <= env.gasLimit
              && (!tx.zeroSignature ==>
                    tx.nonce == w.NonceOf(tx.sender) && tx.value + tx.gas * tx.gasPrice <= w.BalanceOf(tx.sender))
  {
    TimesIsProduct(tx.gas, tx.gasPrice);
  }

  /** The reason given for a refusal is one. */
  lemma RefusedFor(rules: Rules, env: Env, w: World, tx: Tx)
    requires Verify(rules, env, w, tx).Refused?
    ensures match Verify(rules, env, w, tx).why
            case InvalidSignature => tx.zeroSignature && !rules.constantinople
            case InvalidZeroSignature => tx.zeroSignature && !(tx.value == tx.gasPrice == tx.nonce == 0)
            case OutOfGasIntrinsic => tx.gas < tx.baseGas
            case BlockGasLimitReached => env.gasLimit < env.gasUsed + tx.gas
            case InvalidNonce => !tx.zeroSignature && tx.nonce != w.NonceOf(tx.sender)
            case InsufficientCash => !tx.zeroSignature && w.BalanceOf(tx.sender) < tx.value + tx.gas * tx.gasPrice
  {
    TimesIsProduct(tx.gas, tx.gasPrice);
  }

  // ---------------------------------------------------------------- refunds

  lemma ModAdd(a: nat, b: nat)
    ensures (a % TWO_256 + b % TWO_256) % TWO_256 == (a + b) % TWO_256
  {
    AddedTwice(b % TWO_256, a, 0);
    AddedTwice(a, b, 0);
    AddedTwice(b, 0, a);
    AddedTwice(a, 0, b % TWO_256);
  }

  lemma {:induction false} SuicideCreditIs(rules: Rules, n: nat)
    ensures SuicideCredit(rules, n) == Times(n, rules.suicideRefund) % TWO_256
  {
    if n > 0 {
      SuicideCreditIs(rules, n - 1);
      ModAdd(Times(n - 1, rules.suicideRefund), rules.suicideRefund);
    }
  }

  lemma AddReduced(a: u256, b: nat)
    ensures Add(a, b % TWO_256) == (a + b) % TWO_256
  {
    ModAdd(a, b);
  }

  /** The credits that were earned, on 256 bits, up to half of the gas consumed. */
  lemma RefundIs(rules: Rules, tx: Tx, left: nat, sub: SubState, earned: nat)
    requires left <= tx.gas && earned == sub.refunds + |sub.suicides| * rules.suicideRefund
    ensures var credit, half := earned % TWO_256, (tx.gas - left) / 2;
            RefundFor(rules, tx, left, sub) == if half <= credit then half else credit
  {
    SuicideCreditIs(rules, |sub.suicides|);
    TimesIsProduct(|sub.suicides|, rules.suicideRefund);
    AddReduced(sub.refunds, Times(|sub.suicides|, rules.suicideRefund));
  }

  // ---------------------------------------------------------------- payments

  /** Only balances changed: `a` has `x` more and `b` has `y` more, or both have both if they are the same. */
  ghost predicate Pays(w: World, w': World, a: Address, x: int, b: Address, y: int) {
    && (forall c {:trigger w'.BalanceOf(c)} ::
          w'.BalanceOf(c) == w.BalanceOf(c) + (if c == a then x else 0) + (if c == b then y else 0))
    && SameNonces(w, w', {}) && SameCodes(w, w', {}) && SameSlots(w, w', {})
  }

  lemma PaymentFits(w: World, a: Address, x: u256)
    requires Total(w.accounts) + x < TWO_256
    ensures w.BalanceOf(a) + x < TWO_256 && BalanceBecomes(w, AddBalance(w, a, x), a, w.BalanceOf(a) + x)
  {
    TotalCovers(w.accounts, a);
    AddBalanceSeen(w, a, x);
  }

  lemma PaymentsSeen(w: World, a: Address, x: u256, b: Address, y: u256)
    requires Total(w.accounts) + x + y < TWO_256
    ensures Pays(w, AddBalance(AddBalance(w, a, x), b, y), a, x, b, y)
  {
    PaymentFits(w, a, x);
    PaymentTotal(w, a, x);
    PaymentFits(AddBalance(w, a, x), b, y);
  }

  /** The sender gets the gas that is left at its price, the author the gas that was used, and nobody anything else. */
  lemma SettlePays(env: Env, w: World, tx: Tx, left: u256)
    requires left <= tx.gas && tx.gas * tx.gasPrice < TWO_256 && Total(w.accounts) + tx.gas * tx.gasPrice < TWO_256
    ensures Pays(w, Settle(env, w, tx, left), tx.sender, left * tx.gasPrice, env.author, (tx.gas - left) * tx.gasPrice)
  {
    ProductSplit(left, tx.gas, tx.gasPrice);
    PaymentsSeen(w, tx.sender, Product(left, tx.gasPrice), env.author, Product(tx.gas - left, tx.gasPrice));
  }

  lemma KillAllSeen(w: World, suicides: set<Address>)
    ensures Killed(w, KillAll(w, suicides), suicides)
  {
  }

  /**
   What a transaction leaves after its outermost frame: every account that is not a suicide has its share of the gas at
   its price, and nothing else, and every suicide is empty.
   */
  ghost predicate Outcomes(env: Env, tx: Tx, frame: Frame, left: int, refund: int, fee: int, o: Outcome) {
    var dead := frame.sub.suicides;
    && o.gasUsed == tx.gas - left && o.logs == frame.sub.logs
    && (forall a {:trigger o.world.BalanceOf(a)} :: a !in dead ==>
          o.world.BalanceOf(a)
          == frame.world.BalanceOf(a) + (if a == tx.sender then refund else 0) + (if a == env.author then fee else 0))
    && SameNonces(frame.world, o.world, dead) && SameCodes(frame.world, o.world, dead)
    && SameSlots(frame.world, o.world, dead)
    && (forall a :: a in dead ==> o.world.BalanceOf(a) == 0 && o.world.CodeOf(a) == [])
  }

  lemma FinalizePays(env: Env, tx: Tx, frame: Frame, left: nat, refund: int, fee: int)
    requires frame.gas <= left <= tx.gas && tx.gas * tx.gasPrice < TWO_256
    requires Total(frame.world.accounts) + tx.gas * tx.gasPrice < TWO_256
    requires refund == left * tx.gasPrice && fee == (tx.gas - left) * tx.gasPrice
    ensures Outcomes(env, tx, frame, left, refund, fee, Finalize(env, tx, frame, left))
  {
    var settled := Settle(env, frame.world, tx, left);
    SettlePays(env, frame.world, tx, left);
    KillAllSeen(settled, frame.sub.suicides);
    PaidAndKilled(frame.world, settled, KillAll(settled, frame.sub.suicides), tx.sender, refund, env.author, fee,
                  frame.sub.suicides);
  }

  lemma PaidAndKilled(w: World, w1: World, w': World, a: Address, x: int, b: Address, y: int, dead: set<Address>)
    requires Pays(w, w1, a, x, b, y) && Killed(w1, w', dead) && w'.startNonce == w1.startNonce
    ensures forall c :: c !in dead ==>
              w'.BalanceOf(c) == w.BalanceOf(c) + (if c == a then x else 0) + (if c == b then y else 0)
    ensures SameNonces(w, w', dead) && SameCodes(w, w', dead) && SameSlots(w, w', dead)
    ensures forall c :: c in dead ==> w'.BalanceOf(c) == 0 && w'.CodeOf(c) == []
    ensures forall c :: c in dead && c in w'.accounts ==> !w'.accounts[c].alive
  {
    assert forall c :: c !in dead ==> w'.BalanceOf(c) == w1.BalanceOf(c);
    assert forall c :: c !in dead ==> w'.NonceOf(c) == w1.NonceOf(c);
    assert forall c :: c !in dead ==> w'.CodeOf(c) == w1.CodeOf(c);
    assert forall c, l :: c !in dead ==> w'.StorageAt(c, l) == w1.StorageAt(c, l);
  }

  // ---------------------------------------------------------------- whole transactions

  /** The sender has paid `cost`, and its nonce is up by one but for the pseudo sender from Constantinople on. */
  ghost predicate Charged(rules: Rules, w: World, w': World, sender: Address, cost: int) {
    && w'.BalanceOf(sender) == w.BalanceOf(sender) - cost
    && w'.NonceOf(sender) == (if sender == 0xffff_ffff_ffff_ffff_ffff_ffff_ffff_ffff_ffff_ffff && rules.constantinople
                              then w.NonceOf(sender) else (w.NonceOf(sender) + 1) % TWO_256)
    && SameBalances(w, w', {sender}) && SameNonces(w, w', {sender}) && SameCodes(w, w', {}) && SameSlots(w, w', {})
  }

  lemma ChargedFirst(rules: Rules, env: Env, w: World, tx: Tx) returns (w1: World)
    requires Sound(w) && Verify(rules, env, w, tx).Accepted?
    ensures w1 == Bump(rules, PayForGas(w, tx), tx.sender) && Charged(rules, w, w1, tx.sender, GasCost(tx))
  {
    AcceptedPays(rules, env, w, tx);
    SubBalanceSeen(w, tx.sender, GasCost(tx));
    var paid := PayForGas(w, tx);
    IncNonceSeen(paid, tx.sender);
    w1 := Bump(rules, paid, tx.sender);
  }

  /** The gas left after the refund of what was earned, on 256 bits, up to half of the gas consumed. */
  ghost predicate LeftIs(tx: Tx, frame: Frame, earned: nat, left: int)
    requires frame.gas <= tx.gas
  {
    var credit, half := earned % TWO_256, (tx.gas - frame.gas) / 2;
    left == frame.gas + if half <= credit then half else credit
  }

  lemma LeftAfterIs(rules: Rules, tx: Tx, frame: Frame) returns (earned: nat)
    requires frame.gas <= tx.gas
    ensures Earned(rules, frame, earned) && LeftIs(tx, frame, earned, LeftAfter(rules, tx, frame))
  {
    earned := frame.sub.refunds + Times(|frame.sub.suicides|, rules.suicideRefund);
    TimesIsProduct(|frame.sub.suicides|, rules.suicideRefund);
    RefundIs(rules, tx, frame.gas, frame.sub, earned);
  }

  /** The one outermost frame, with the gas beyond the intrinsic gas. */
  ghost predicate OutermostFrame(rules: Rules, w1: World, tx: Tx, b: Behaviour, frame: Frame)
    requires tx.baseGas <= tx.gas
  {
    OutermostBehind(LAYERS, rules, w1, tx, b, frame)
  }

  /** The layers only keep proofs about whole transactions from looking inside the frame. */
  ghost predicate OutermostBehind(layers: nat, rules: Rules, w1: World, tx: Tx, b: Behaviour, frame: Frame)
    requires tx.baseGas <= tx.gas
    decreases layers
  {
    if 0 < layers then OutermostBehind(layers - 1, rules, w1, tx, b, frame)
    else if tx.creation then
      frame == CreateAt(rules, w1, tx.sender, b.newAddress, tx.value, tx.gas - tx.baseGas, 0, b.noInit, b.body)
    else frame == RunCall(rules, w1, tx.sender, tx.to, tx.to, tx.value, tx.gas - tx.baseGas, 0, b.pre, b.body)
  }

  lemma OutermostIs(rules: Rules, w1: World, tx: Tx, b: Behaviour, frame: Frame)
    requires tx.baseGas <= tx.gas
    ensures OutermostFrame(rules, w1, tx, b, frame) <==>
              var given := tx.gas - tx.baseGas;
              frame == if tx.creation then
                         CreateAt(rules, w1, tx.sender, b.newAddress, tx.value, given, 0, b.noInit, b.body)
                       else RunCall(rules, w1, tx.sender, tx.to, tx.to, tx.value, given, 0, b.pre, b.body)
  {
    assert OutermostBehind(LAYERS, rules, w1, tx, b, frame) == OutermostBehind(LAYERS - 1, rules, w1, tx, b, frame);
    assert OutermostBehind(LAYERS - 1, rules, w1, tx, b, frame) == OutermostBehind(LAYERS - 2, rules, w1, tx, b, frame);
  }

  /**
   An accepted transaction: the sender pays for all of its gas first and its nonce goes up; one outermost frame runs
   with the gas beyond the intrinsic gas; the refund is what was earned up to half of what was consumed; the sender gets
   the gas left at its price and the author the gas used; suicides die.
   */
  lemma AcceptedTx(rules: Rules, env: Env, w: World, tx: Tx, b: Behaviour)
    returns (w1: World, frame: Frame, earned: nat, left: nat, refund: nat, fee: nat)
    requires Sound(w) && Verify(rules, env, w, tx).Accepted?
    ensures left <= tx.gas && Shares(tx, left, refund, fee)
    ensures Charged(rules, w, w1, tx.sender, refund + fee)
    ensures Sound(w1) && !NotEnoughCash(w1, tx.sender, tx.value)
    ensures tx.baseGas <= tx.gas && OutermostFrame(rules, w1, tx, b, frame)
    ensures Earned(rules, frame, earned)
    ensures frame.gas <= left <= tx.gas && LeftIs(tx, frame, earned, left)
    ensures Outcomes(env, tx, frame, left, refund, fee, RunTx(rules, env, w, tx, b))
  {
    w1, frame, earned, left := RunOf(rules, env, w, tx, b);
    refund, fee := FinalizeShares(rules, env, w, tx, frame, left);
  }

  /** What the sender and the author get of the price of all gas. */
  ghost predicate Shares(tx: Tx, left: u256, refund: int, fee: int)
    requires left <= tx.gas
  {
    refund == Times(left, tx.gasPrice) && fee == Times(tx.gas - left, tx.gasPrice)
  }

  lemma FinalizeShares(rules: Rules, env: Env, w: World, tx: Tx, frame: Frame, left: nat)
    returns (refund: nat, fee: nat)
    requires Verify(rules, env, w, tx).Accepted? && frame.gas <= left <= tx.gas
    requires Total(frame.world.accounts) + GasCost(tx) < TWO_256
    ensures Shares(tx, left, refund, fee) && refund + fee == GasCost(tx)
    ensures Outcomes(env, tx, frame, left, refund, fee, Finalize(env, tx, frame, left))
  {
    refund, fee := Times(left, tx.gasPrice), Times(tx.gas - left, tx.gasPrice);
    AcceptedPays(rules, env, w, tx);
    ProductSplit(left, tx.gas, tx.gasPrice);
    TimesIsProduct(left, tx.gasPrice);
    TimesIsProduct(tx.gas - left, tx.gasPrice);
    FinalizePays(env, tx, frame, left, refund, fee);
  }

  /** All that the frame's refund credits and suicides earned; for `Times` see `TimesIsProduct`. */
  ghost predicate Earned(rules: Rules, frame: Frame, earned: int) {
    earned == frame.sub.refunds + Times(|frame.sub.suicides|, rules.suicideRefund)
  }

  /** The frame, and that `RunTx` finalizes it. */
  lemma RunOf(rules: Rules, env: Env, w: World, tx: Tx, b: Behaviour)
    returns (w1: World, frame: Frame, earned: nat, left: nat)
    requires Sound(w) && Verify(rules, env, w, tx).Accepted?
    ensures Charged(rules, w, w1, tx.sender, GasCost(tx)) && Sound(w1) && !NotEnoughCash(w1, tx.sender, tx.value)
    ensures tx.baseGas <= tx.gas && OutermostFrame(rules, w1, tx, b, frame)
    ensures Earned(rules, frame, earned) && frame.gas <= left <= tx.gas && LeftIs(tx, frame, earned, left)
    ensures RunTx(rules, env, w, tx, b) == Finalize(env, tx, frame, left)
    ensures Total(frame.world.accounts) + GasCost(tx) < TWO_256
  {
    w1 := ChargedFirst(rules, env, w, tx);
    frame, left := FrameOf(rules, env, w, tx, b, w1);
    earned := LeftAfterIs(rules, tx, frame);
  }

  lemma FrameOf(rules: Rules, env: Env, w: World, tx: Tx, b: Behaviour, w1: World) returns (frame: Frame, left: nat)
    requires Sound(w) && Verify(rules, env, w, tx).Accepted? && w1 == Bump(rules, PayForGas(w, tx), tx.sender)
    ensures Sound(w1) && !NotEnoughCash(w1, tx.sender, tx.value)
    ensures tx.baseGas <= tx.gas && OutermostFrame(rules, w1, tx, b, frame)
    ensures frame.gas <= tx.gas && left == LeftAfter(rules, tx, frame)
    ensures RunTx(rules, env, w, tx, b) == Finalize(env, tx, frame, left)
    ensures Total(frame.world.accounts) + GasCost(tx) < TWO_256
  {
    frame := PaidFrame(rules, env, w, tx, b, w1);
    left := LeftAfter(rules, tx, frame);
    RunTxIs(rules, env, w, tx, b, frame);
    OutermostSealed(rules, PayForGas(w, tx), tx, b, w1, frame);
  }

  lemma OutermostSealed(rules: Rules, w: World, tx: Tx, b: Behaviour, w1: World, frame: Frame)
    requires tx.baseGas <= tx.gas && w1 == Bump(rules, w, tx.sender) && frame == Outermost(rules, w, tx, b)
    ensures OutermostFrame(rules, w1, tx, b, frame)
  {
    OutermostIs(rules, w1, tx, b, frame);
  }

  lemma PaidFrame(rules: Rules, env: Env, w: World, tx: Tx, b: Behaviour, w1: World) returns (frame: Frame)
    requires Sound(w) && Verify(rules, env, w, tx).Accepted? && w1 == Bump(rules, PayForGas(w, tx), tx.sender)
    ensures Sound(w1) && !NotEnoughCash(w1, tx.sender, tx.value) && !NotEnoughCash(w, tx.sender, GasCost(tx))
    ensures frame == Outermost(rules, PayForGas(w, tx), tx, b) && frame.gas <= tx.gas
    ensures Total(frame.world.accounts) + GasCost(tx) < TWO_256
  {
    AcceptedPays(rules, env, w, tx);
    SubBalanceTotal(w, tx.sender, GasCost(tx));
    PaidSound(w, tx.sender, GasCost(tx));
    var w0;
    w0, frame := OutermostSound(rules, PayForGas(w, tx), tx, b);
    BumpBalance(rules, PayForGas(w, tx), tx.sender, tx.sender);
  }

  /** From before the transaction to its end, in three steps of which only the balances are told. */
  ghost predicate Transferred(env: Env, tx: Tx, w: World, w': World, fee: int) {
    && (forall a {:trigger w'.BalanceOf(a)} ::
          w'.BalanceOf(a) == w.BalanceOf(a) - (if a == tx.sender then tx.value + fee else 0)
                             + (if a == tx.to then tx.value else 0) + (if a == env.author then fee else 0))
    && SameNonces(w, w', {tx.sender}) && SameCodes(w, w', {}) && SameSlots(w, w', {})
  }

  lemma TransferAdds(rules: Rules, env: Env, tx: Tx, w: World, w1: World, frame: Frame, left: int, refund: int,
                     fee: int, o: Outcome)
    requires Charged(rules, w, w1, tx.sender, refund + fee) && Outcomes(env, tx, frame, left, refund, fee, o)
    requires Sound(w1) && !NotEnoughCash(w1, tx.sender, tx.value)
    requires Moves(w1, frame.world, tx.sender, tx.to, tx.value) && frame.sub == NO_SUBSTATE
    ensures Transferred(env, tx, w, o.world, fee)
  {
    MovedFits(w1, frame.world, tx.sender, tx.to, tx.value);
    forall a
      ensures o.world.BalanceOf(a)
              == w.BalanceOf(a) - (if a == tx.sender then tx.value + fee else 0)
                 + (if a == tx.to then tx.value else 0) + (if a == env.author then fee else 0)
    {
      assert o.world.BalanceOf(a)
             == frame.world.BalanceOf(a) + (if a == tx.sender then refund else 0)
                + (if a == env.author then fee else 0);
      assert w1.BalanceOf(a) == w.BalanceOf(a) - if a == tx.sender then refund + fee else 0;
    }
    OthersSame(w, w1, frame.world, o.world, tx.sender);
  }

  lemma OthersSame(w: World, w1: World, w2: World, w': World, sender: Address)
    requires SameNonces(w, w1, {sender}) && SameNonces(w1, w2, {}) && SameNonces(w2, w', {})
    requires SameCodes(w, w1, {}) && SameCodes(w1, w2, {}) && SameCodes(w2, w', {})
    requires SameSlots(w, w1, {}) && SameSlots(w1, w2, {}) && SameSlots(w2, w', {})
    ensures SameNonces(w, w', {sender}) && SameCodes(w, w', {}) && SameSlots(w, w', {})
  {
  }

  /**
   A transaction to an account without code: the intrinsic gas is used, the value goes to the receiver and the price of
   that gas to the author, whichever of the three are the same.
   */
  lemma TransferTx(rules: Rules, env: Env, w: World, tx: Tx, b: Behaviour, fee: int)
    requires Sound(w) && Verify(rules, env, w, tx).Accepted? && fee == tx.baseGas * tx.gasPrice
    requires !tx.creation && tx.to !in rules.precompiled && w.CodeOf(tx.to) == []
    ensures var o := RunTx(rules, env, w, tx, b);
            o.gasUsed == tx.baseGas && o.logs == [] && Transferred(env, tx, w, o.world, fee)
  {
    TimesIsProduct(tx.baseGas, tx.gasPrice);
    TransferRun(rules, env, w, tx, b);
  }

  lemma TransferRun(rules: Rules, env: Env, w: World, tx: Tx, b: Behaviour)
    requires Sound(w) && Verify(rules, env, w, tx).Accepted?
    requires !tx.creation && tx.to !in rules.precompiled && w.CodeOf(tx.to) == []
    ensures var o := RunTx(rules, env, w, tx, b);
            o.gasUsed == tx.baseGas && o.logs == []
            && Transferred(env, tx, w, o.world, Times(tx.baseGas, tx.gasPrice))
  {
    var w1, frame, earned, left, refund, fee := AcceptedTx(rules, env, w, tx, b);
    TransferEnds(rules, env, w, tx, b, w1, frame, earned, left, refund, fee, RunTx(rules, env, w, tx, b));
  }

  lemma TransferEnds(rules: Rules, env: Env, w: World, tx: Tx, b: Behaviour, w1: World, frame: Frame, earned: nat,
                     left: nat, refund: nat, fee: nat, o: Outcome)
    requires !tx.creation && tx.to !in rules.precompiled && w.CodeOf(tx.to) == []
    requires Charged(rules, w, w1, tx.sender, refund + fee) && Sound(w1) && !NotEnoughCash(w1, tx.sender, tx.value)
    requires tx.baseGas <= tx.gas && OutermostFrame(rules, w1, tx, b, frame) && Earned(rules, frame, earned)
    requires frame.gas <= left <= tx.gas && LeftIs(tx, frame, earned, left) && Shares(tx, left, refund, fee)
    requires Outcomes(env, tx, frame, left, refund, fee, o)
    ensures o.gasUsed == tx.baseGas && o.logs == []
    ensures Transferred(env, tx, w, o.world, Times(tx.baseGas, tx.gasPrice))
  {
    TransferFrame(rules, w1, tx, b, frame);
    TransferLeft(rules, tx, frame, earned, left);
    TransferAdds(rules, env, tx, w, w1, frame, left, refund, fee, o);
  }

  lemma TransferLeft(rules: Rules, tx: Tx, frame: Frame, earned: nat, left: nat)
    requires tx.baseGas <= tx.gas && frame.gas == tx.gas - tx.baseGas && frame.sub == NO_SUBSTATE
    requires LeftIs(tx, frame, earned, left) && Earned(rules, frame, earned)
    ensures left == tx.gas - tx.baseGas
  {
  }

  lemma TransferFrame(rules: Rules, w1: World, tx: Tx, b: Behaviour, frame: Frame)
    requires tx.baseGas <= tx.gas && OutermostFrame(rules, w1, tx, b, frame) && !NotEnoughCash(w1, tx.sender, tx.value)
    requires !tx.creation && tx.to !in rules.precompiled && w1.CodeOf(tx.to) == []
    ensures frame.gas == tx.gas - tx.baseGas && frame.sub == NO_SUBSTATE
    ensures Moves(w1, frame.world, tx.sender, tx.to, tx.value)
  {
    OutermostIs(rules, w1, tx, b, frame);
    CallWithoutCode(rules, w1, tx.sender, tx.to, tx.to, tx.value, tx.gas - tx.baseGas, 0, b.pre, b.body, frame);
  }

  /** Nothing wraps around where the sum of all balances fits. */
  lemma MovedFits(w: World, w': World, from: Address, to: Address, v: u256)
    requires Sound(w) && !NotEnoughCash(w, from, v) && MovesBalances(w, w', from, to, v)
    ensures forall a :: w'.BalanceOf(a) == w.BalanceOf(a) - (if a == from then v else 0) + (if a == to then v else 0)
  {
    if from != to {
      TotalCoversTwo(w.accounts, from, to);
    }
  }

  // ---------------------------------------------------------------- the transactions of a block

  /** The gas used before the next transaction. */
  ghost function UsedBy(env: Env, receipts: seq<u256>): u256 {
    if receipts == [] then env.gasUsed else receipts[|receipts| - 1]
  }

  /**
   One more transaction: refused, it changes nothing; otherwise it runs on the world that the others left, with the gas
   that they used, is committed, and adds one receipt.
   */
  ghost predicate RunsOneMore(rules: Rules, env: Env, r: Ran, s: Transactions.Step, r': Ran) {
    var env' := env.(gasUsed := UsedBy(env, r.receipts));
    if Verify(rules, env', r.world, s.tx).Refused? then r' == r
    else
      var o := RunTx(rules, env', r.world, s.tx, s.behaviour);
      && r'.world == Commit(o.world, rules.eip158) && r'.destroyed == r.destroyed + o.destroyed
      && r'.receipts == r.receipts + [Add(env'.gasUsed, o.gasUsed)]
  }

  lemma RunNone(rules: Rules, env: Env, w: World)
    ensures RunAll(rules, env, w, []) == Ran(w, [], 0)
  {
  }

  lemma {:induction false} RunOneMore(rules: Rules, env: Env, w: World, steps: seq<Transactions.Step>,
                                      s: Transactions.Step)
    ensures RunsOneMore(rules, env, RunAll(rules, env, w, steps), s, RunAll(rules, env, w, steps + [s]))
    decreases |steps|
  {
    if steps == [] {
      assert ([] + [s])[1..] == [] && ([] + [s])[0] == s;
    } else {
      var first, rest := steps[0], steps[1..];
      assert (steps + [s])[1..] == rest + [s] && (steps + [s])[0] == first;
      if Verify(rules, env, w, first.tx).Refused? {
        RunOneMore(rules, env, w, rest, s);
      } else {
        var o := RunTx(rules, env, w, first.tx, first.behaviour);
        var env1, w1 := env.(gasUsed := Add(env.gasUsed, o.gasUsed)), Commit(o.world, rules.eip158);
        RunOneMore(rules, env1, w1, rest, s);
        MoreInFront(rules, env, env1, RunAll(rules, env1, w1, rest), s, RunAll(rules, env1, w1, rest + [s]),
                    o.destroyed);
      }
    }
  }

  lemma MoreInFront(rules: Rules, env: Env, env1: Env, r: Ran, s: Transactions.Step, r': Ran, destroyed: nat)
    requires RunsOneMore(rules, env1, r, s, r') && env1 == env.(gasUsed := env1.gasUsed)
    ensures RunsOneMore(rules, env, Ran(r.world, [env1.gasUsed] + r.receipts, destroyed + r.destroyed), s,
                        Ran(r'.world, [env1.gasUsed] + r'.receipts, destroyed + r'.destroyed))
  {
    var used := [env1.gasUsed] + r.receipts;
    assert UsedBy(env, used) == UsedBy(env1, r.receipts);
  }
}
