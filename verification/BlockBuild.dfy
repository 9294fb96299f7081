/** Building a block: executing transactions, committing it for sealing, and enacting it again elsewhere. */
module BlockBuild {
  import opened Words
  import opened Journal
  import opened Ether
  import opened WorldLaws
  import opened Uncles
  import Tree = BlockTree
  import T = Transactions
  import Frames

  // ---------------------------------------------------------------- transactions

  /** What `State::execute` makes of a transaction, given the state and the gas used so far in the block. */
  datatype Executed = Refused | Done(world: World, gasUsed: u256)

  type Machine = (World, u256, T.Step) -> Executed

  datatype Built = Built(world: World, gasUsed: u256)

  /** Every transaction in turn is accepted. */
  predicate AllAccepted(run: Machine, b: Built, txs: seq<T.Step>) {
    txs == [] ||
    (AllAccepted(run, b, txs[..|txs| - 1]) &&
     var r := Apply(run, b, txs[..|txs| - 1]);
     run(r.world, r.gasUsed, txs[|txs| - 1]).Done?)
  }

  /** The transactions applied in order. */
  function Apply(run: Machine, b: Built, txs: seq<T.Step>): Built {
    if txs == [] then b
    else
      var r := Apply(run, b, txs[..|txs| - 1]);
      match run(r.world, r.gasUsed, txs[|txs| - 1])
      case Refused => r
      case Done(w, g) => Built(w, g)
  }

  lemma ApplyMore(run: Machine, b: Built, txs: seq<T.Step>, s: T.Step)
    ensures var r := Apply(run, b, txs);
            && Apply(run, b, txs + [s]) == (match run(r.world, r.gasUsed, s)
                                            case Refused => r
                                            case Done(w, g) => Built(w, g))
            && (AllAccepted(run, b, txs + [s]) <==> AllAccepted(run, b, txs) && run(r.world, r.gasUsed, s).Done?)
  {
    assert (txs + [s])[..|txs|] == txs;
  }

  lemma {:induction false} ApplyFirst(run: Machine, b: Built, s: T.Step, txs: seq<T.Step>)
    requires run(b.world, b.gasUsed, s).Done?
    ensures var r := run(b.world, b.gasUsed, s);
            Apply(run, b, [s] + txs) == Apply(run, Built(r.world, r.gasUsed), txs)
    decreases |txs|
  {
    if txs == [] {
      assert [s] + txs == [] + [s];
      ApplyMore(run, b, [], s);
    } else {
      var front, last := txs[..|txs| - 1], txs[|txs| - 1];
      assert [s] + txs == ([s] + front) + [last];
      ApplyFirst(run, b, s, front);
      ApplyMore(run, b, [s] + front, last);
    }
  }

  // ---------------------------------------------------------------- rewards

  /** On 256 bits, as the code computes it. */
  function UncleReward(reward: u256, number: nat, uncle: nat): u256 { reward * (8 + uncle - number) % TWO_256 / 8 }

  /** The rewards of the uncles, in order. */
  function RewardUncles(w: World, number: nat, reward: u256, us: seq<Header>): World {
    if us == [] then w
    else
      var u := us[|us| - 1];
      AddBalance(RewardUncles(w, number, reward, us[..|us| - 1]), u.author, UncleReward(reward, number, u.number))
  }

  /** The author's reward: a block's, and a thirty-second more for every uncle. */
  function OwnReward(reward: u256, uncles: nat): u256 {
    if uncles == 0 then reward else Add(OwnReward(reward, uncles - 1), reward / 32)
  }

  function Rewarded(w: World, number: nat, author: Address, reward: u256, us: seq<Header>): World {
    AddBalance(RewardUncles(w, number, reward, us), author, OwnReward(reward, |us|))
  }

  method ApplyRewards(w: World, number: nat, author: Address, reward: u256, us: seq<Header>) returns (r: World)
    ensures r == Rewarded(w, number, author, reward, us)
  {
    var own := reward;
    r := w;
    for i := 0 to |us|
      invariant r == RewardUncles(w, number, reward, us[..i]) && own == OwnReward(reward, i)
    {
      assert us[..i + 1][..i] == us[..i];
      r := AddBalance(r, us[i].author, UncleReward(reward, number, us[i].number));
      own := Add(own, reward / 32);
    }
    assert us[..|us|] == us;
    r := AddBalance(r, author, own);
  }

  /** Section 11.3 of the Yellow Paper: an eighth of the reward less for every generation. */
  function UncleDue(reward: nat, number: nat, uncle: nat): int { EighthsBehind(LAYERS, reward, 8 + uncle - number) }

  /** The layers only keep this product out of proofs about sums of them. */
  const LAYERS: nat := 2

  function EighthsBehind(layers: nat, reward: nat, k: int): int
    decreases layers
  {
    if 0 < layers then EighthsBehind(layers - 1, reward, k) else reward * k / 8
  }

  lemma UncleDueIs(reward: nat, number: nat, uncle: nat)
    ensures UncleDue(reward, number, uncle) == reward * (8 + uncle - number) / 8
  {
    var k := 8 + uncle - number;
    assert EighthsBehind(LAYERS, reward, k) == EighthsBehind(LAYERS - 1, reward, k);
    assert EighthsBehind(LAYERS - 1, reward, k) == EighthsBehind(LAYERS - 2, reward, k);
  }

  /** What the uncles get. */
  function UnclesMinted(number: nat, reward: nat, us: seq<Header>): int {
    if us == [] then 0
    else UnclesMinted(number, reward, us[..|us| - 1]) + UncleDue(reward, number, us[|us| - 1].number)
  }

  /** All uncles are one to six generations back, so the rewards stay well below 2^256. */
  ghost predicate Moderate(number: nat, reward: u256, us: seq<Header>) {
    && |us| <= 2 && reward < TWO_256 / 16
    && forall i :: 0 <= i < |us| ==> 1 <= number - us[i].number <= 6
  }

  lemma UncleRewardExact(reward: u256, number: nat, uncle: nat)
    requires reward < TWO_256 / 16 && 1 <= number - uncle <= 6
    ensures UncleReward(reward, number, uncle) == UncleDue(reward, number, uncle) >= 0
  {
    UncleDueIs(reward, number, uncle);
    var k := 8 + uncle - number;
    SmallProduct(reward, k);
    Unwrapped(reward * k);
  }

  lemma SmallProduct(reward: u256, k: int)
    requires reward < TWO_256 / 16 && 2 <= k <= 7
    ensures 0 <= reward * k < TWO_256
  {
    if k == 2 {
      assert reward * k == reward * 2;
    } else if k == 3 {
      assert reward * k == reward * 3;
    } else if k == 4 {
      assert reward * k == reward * 4;
    } else if k == 5 {
      assert reward * k == reward * 5;
    } else if k == 6 {
      assert reward * k == reward * 6;
    } else {
      assert reward * k == reward * 7;
    }
  }

  lemma Unwrapped(x: int)
    requires 0 <= x < TWO_256
    ensures x % TWO_256 == x && 0 <= x / 8
  {
  }

  lemma {:induction false} RewardUnclesMint(w: World, number: nat, reward: u256, us: seq<Header>)
    requires Moderate(number, reward, us) && Total(w.accounts) + UnclesMinted(number, reward, us) < TWO_256
    ensures 0 <= UnclesMinted(number, reward, us)
    ensures Total(RewardUncles(w, number, reward, us).accounts) == Total(w.accounts) + UnclesMinted(number, reward, us)
    decreases |us|
  {
    if us != [] {
      var front, u := us[..|us| - 1], us[|us| - 1];
      UncleRewardExact(reward, number, u.number);
      RewardUnclesMint(w, number, reward, front);
      var w1 := RewardUncles(w, number, reward, front);
      AddBalanceTotal(w1, u.author, UncleReward(reward, number, u.number));
      TotalCovers(w1.accounts, u.author);
    }
  }

  lemma OwnRewardExact(reward: u256, uncles: nat)
    requires reward < TWO_256 / 16 && uncles <= 2
    ensures OwnReward(reward, uncles) == reward + uncles * (reward / 32)
  {
    if uncles > 0 {
      OwnRewardExact(reward, uncles - 1);
    }
  }

  /** Rewarding a block mints exactly its rewards, whoever shares an account. */
  lemma RewardsMint(w: World, number: nat, author: Address, reward: u256, us: seq<Header>)
    requires Moderate(number, reward, us)
    requires Total(w.accounts) + UnclesMinted(number, reward, us) + reward + |us| * (reward / 32) < TWO_256
    ensures Total(Rewarded(w, number, author, reward, us).accounts)
            == Total(w.accounts) + UnclesMinted(number, reward, us) + reward + |us| * (reward / 32)
  {
    RewardUnclesMint(w, number, reward, us);
    OwnRewardExact(reward, |us|);
    var w1 := RewardUncles(w, number, reward, us);
    AddBalanceTotal(w1, author, OwnReward(reward, |us|));
    TotalCovers(w1.accounts, author);
  }

  /** What the uncles by `a` get. */
  function UncleShare(a: Address, number: nat, reward: nat, us: seq<Header>): int {
    if us == [] then 0
    else
      var u := us[|us| - 1];
      UncleShare(a, number, reward, us[..|us| - 1])
      + if u.author == a then UncleDue(reward, number, u.number) else 0
  }

  lemma {:induction false} UnclesPaid(w: World, number: nat, reward: u256, us: seq<Header>)
    requires Moderate(number, reward, us) && Total(w.accounts) + UnclesMinted(number, reward, us) < TWO_256
    ensures var w' := RewardUncles(w, number, reward, us);
            && (forall a {:trigger w'.BalanceOf(a)} ::
                  w'.BalanceOf(a) == w.BalanceOf(a) + UncleShare(a, number, reward, us))
            && SameNonces(w, w', {}) && SameCodes(w, w', {}) && SameSlots(w, w', {})
    decreases |us|
  {
    if us != [] {
      var front, u := us[..|us| - 1], us[|us| - 1];
      UncleRewardExact(reward, number, u.number);
      UnclesPaid(w, number, reward, front);
      RewardUnclesMint(w, number, reward, front);
      var w1 := RewardUncles(w, number, reward, front);
      TotalCovers(w1.accounts, u.author);
      AddBalanceSeen(w1, u.author, UncleReward(reward, number, u.number));
    }
  }

  /** Every uncle's author gets its share, the author of the block the rest, and nobody anything else. */
  lemma RewardsPaid(w: World, number: nat, author: Address, reward: u256, us: seq<Header>)
    requires Moderate(number, reward, us)
    requires Total(w.accounts) + UnclesMinted(number, reward, us) + reward + |us| * (reward / 32) < TWO_256
    ensures var w' := Rewarded(w, number, author, reward, us);
            && (forall a {:trigger w'.BalanceOf(a)} ::
                  w'.BalanceOf(a) == w.BalanceOf(a) + UncleShare(a, number, reward, us)
                                     + if a == author then reward + |us| * (reward / 32) else 0)
            && SameNonces(w, w', {}) && SameCodes(w, w', {}) && SameSlots(w, w', {})
  {
    UnclesPaid(w, number, reward, us);
    RewardUnclesMint(w, number, reward, us);
    OwnRewardExact(reward, |us|);
    var w1 := RewardUncles(w, number, reward, us);
    TotalCovers(w1.accounts, author);
    AddBalanceSeen(w1, author, OwnReward(reward, |us|));
  }

  // ---------------------------------------------------------------- the block

  datatype Reply = Ok | InvalidOperationOnSealedBlock | TransactionRefused

  /** The gas used so far: that of the last receipt. */
  function GasUsed(receipts: seq<u256>): u256 { if receipts == [] then 0 else receipts[|receipts| - 1] }

  class Block {
    const run: Machine
    /** The state on top of the previous block. */
    const start: World
    const previous: Tree.Hash
    const number: nat
    const author: Address
    const reward: u256
    const removeEmpty: bool
    var state: World
    var precommit: World
    var committedToSeal: bool
    var isSealed: bool
    var transactions: seq<T.Step>
    var receipts: seq<u256>
    var uncles: seq<Header>

    constructor (run: Machine, start: World, previous: Tree.Hash, number: nat, author: Address, reward: u256,
                 removeEmpty: bool)
      ensures Valid() && transactions == [] && !committedToSeal && !isSealed
      ensures this.run == run && this.start == start && this.previous == previous && this.number == number
    {
      this.run, this.start, this.previous, this.number := run, start, previous, number;
      this.author, this.reward, this.removeEmpty := author, reward, removeEmpty;
      state, precommit, committedToSeal, isSealed := start, start, false, false;
      transactions, receipts, uncles := [], [], [];
    }

    /** The transactions of the block applied in order to the state it started from. */
    function Base(): Built
      reads this
    {
      Apply(run, Built(start, 0), transactions)
    }

    /** The state of a block with its rewards paid. */
    function Sealable(w: World, us: seq<Header>): World {
      Commit(Rewarded(w, number, author, reward, us), removeEmpty)
    }

    /** The rewards are in the state, once, exactly while the block is committed and not yet sealed. */
    predicate Valid()
      reads this
    {
      && AllAccepted(run, Built(start, 0), transactions)
      && |receipts| == |transactions| && GasUsed(receipts) == Base().gasUsed
      && (committedToSeal ==> precommit == Base().world)
      && (isSealed ==> committedToSeal)
      && state == (if committedToSeal && !isSealed then Sealable(Base().world, uncles) else Base().world)
    }

    method UncommitToSeal()
      requires Valid() && !isSealed
      modifies this
      ensures Valid() && !committedToSeal && !isSealed && state == Base().world && precommit == old(precommit)
      ensures transactions == old(transactions) && receipts == old(receipts)
    {
      if committedToSeal {
        state := precommit;
        committedToSeal := false;
      }
    }

    /** Execute one more transaction.  A refused one only takes the block out of its committed state. */
    method Execute(t: T.Step) returns (r: Reply)
      requires Valid()
      modifies this
      ensures Valid()
      ensures r == InvalidOperationOnSealedBlock <==> old(isSealed)
      ensures old(isSealed) ==> state == old(state) && transactions == old(transactions) && isSealed
      ensures !old(isSealed) ==>
                && !committedToSeal && !isSealed
                && (r == Ok <==> run(old(Base()).world, old(Base()).gasUsed, t).Done?)
                && transactions == (if r == Ok then old(transactions) + [t] else old(transactions))
    {
      if isSealed {
        return InvalidOperationOnSealedBlock;
      }
      UncommitToSeal();
      ApplyMore(run, Built(start, 0), transactions, t);
      match run(state, GasUsed(receipts), t)
      case Refused =>
        r := TransactionRefused;
      case Done(w, g) =>
        state := w;
        transactions := transactions + [t];
        receipts := receipts + [g];
        r := Ok;
    }

    /** Pick uncles and pay the rewards, after taking back those of an earlier commit. */
    method CommitToSeal(c: Chain) returns (r: Reply)
      requires Valid() && ChainOk(c) && previous in c.tree
      modifies this
      ensures Valid() && transactions == old(transactions) && isSealed == old(isSealed)
      ensures r == InvalidOperationOnSealedBlock <==> old(isSealed)
      ensures r == InvalidOperationOnSealedBlock || r == Ok
      ensures old(isSealed) ==> state == old(state) && uncles == old(uncles)
      ensures r == Ok ==> committedToSeal && PassWith(c, previous, uncles)
    {
      if isSealed {
        return InvalidOperationOnSealedBlock;
      }
      RememberPrecommit();
      var us := PickHeaders(c, previous);
      PayRewards(us);
      r := Ok;
    }

    /** Take back the rewards of an earlier commit, or remember the state to go back to. */
    method RememberPrecommit()
      requires Valid() && !isSealed
      modifies this
      ensures Valid() && !committedToSeal && !isSealed && precommit == Base().world
      ensures transactions == old(transactions)
    {
      if committedToSeal {
        UncommitToSeal();
      } else {
        precommit := state;
      }
    }

    method PayRewards(us: seq<Header>)
      requires Valid() && !committedToSeal && !isSealed && precommit == Base().world
      modifies this
      ensures Valid() && committedToSeal && !isSealed && uncles == us && transactions == old(transactions)
    {
      uncles := us;
      state := ApplyRewards(state, number, author, reward, us);
      state := Commit(state, removeEmpty);
      committedToSeal := true;
    }

    /** Seal the block, if the sealed header is for it.  The rewards then wait until the block is enacted. */
    method SealBlock(matches: bool) returns (ok: bool)
      requires Valid()
      modifies this
      ensures Valid() && transactions == old(transactions) && uncles == old(uncles)
      ensures ok <==> old(committedToSeal) && matches
      ensures isSealed == (ok || old(isSealed)) && committedToSeal == old(committedToSeal)
      ensures !ok ==> state == old(state)
    {
      if !committedToSeal || !matches {
        return false;
      }
      isSealed := true;
      state := precommit;
      ok := true;
    }
  }

  // ---------------------------------------------------------------- enacting

  datatype Enacted = Accepted(world: World, gasUsed: u256) | BadTransaction | BadUncles(why: Verdict)

  /** Enact a block: execute its transactions, check its uncles, pay the rewards. */
  method Enact(run: Machine, start: World, c: Chain, hash: Tree.Hash, previous: Tree.Hash, number: nat, author: Address,
               reward: u256, removeEmpty: bool, txs: seq<T.Step>, us: seq<Header>)
    returns (r: Enacted)
    requires ChainOk(c) && previous in c.tree
    ensures !AllAccepted(run, Built(start, 0), txs) ==> r == BadTransaction
    ensures AllAccepted(run, Built(start, 0), txs) ==>
              var v := if |us| > 2 then TooManyUncles
                       else CheckEach(c, previous, {previous} + KinAbove(c, previous, GENERATIONS) + {hash}, us);
              var b := Apply(run, Built(start, 0), txs);
              r == if v != Fine then BadUncles(v)
                   else Accepted(Commit(Rewarded(b.world, number, author, reward, us), removeEmpty), b.gasUsed)
  {
    var w, gas := start, 0;
    for i := 0 to |txs|
      invariant Built(w, gas) == Apply(run, Built(start, 0), txs[..i]) && AllAccepted(run, Built(start, 0), txs[..i])
    {
      ApplyMore(run, Built(start, 0), txs[..i], txs[i]);
      assert txs[..i + 1] == txs[..i] + [txs[i]];
      match run(w, gas, txs[i])
      case Refused =>
        PrefixAccepted(run, Built(start, 0), txs, i + 1);
        return BadTransaction;
      case Done(w', g') =>
        w, gas := w', g';
    }
    assert txs[..|txs|] == txs;
    var v := EnactUncles(c, hash, previous, us);
    if v != Fine {
      return BadUncles(v);
    }
    w := ApplyRewards(w, number, author, reward, us);
    r := Accepted(Commit(w, removeEmpty), gas);
  }

  lemma {:induction false} PrefixAccepted(run: Machine, b: Built, txs: seq<T.Step>, n: nat)
    requires n <= |txs|
    ensures AllAccepted(run, b, txs) ==> AllAccepted(run, b, txs[..n])
    decreases |txs|
  {
    if n < |txs| {
      PrefixAccepted(run, b, txs[..|txs| - 1], n);
      assert txs[..|txs| - 1][..n] == txs[..n];
    } else {
      assert txs[..n] == txs;
    }
  }

  /** A block committed for sealing is enacted successfully by whoever has the same chain, to the very same state. */
  method EnactCommitted(b: Block, c: Chain, hash: Tree.Hash) returns (r: Enacted)
    requires b.Valid() && b.committedToSeal && !b.isSealed && ChainOk(c) && b.previous in c.tree && hash !in c.tree
    requires PassWith(c, b.previous, b.uncles)
    ensures r == Accepted(b.state, GasUsed(b.receipts))
  {
    r := Enact(b.run, b.start, c, hash, b.previous, b.number, b.author, b.reward, b.removeEmpty, b.transactions,
               b.uncles);
  }

  // ---------------------------------------------------------------- with the executive

  /** The executive of module Transactions as a machine: the state is committed after every transaction. */
  ghost function Executive(rules: Frames.Rules, beneficiary: Address, gasLimit: u256): Machine {
    (w: World, gas: u256, s: T.Step) =>
      var e := T.Env(beneficiary, gasLimit, gas);
      if T.Verify(rules, e, w, s.tx).Refused? then Refused
      else
        var r := T.RunTx(rules, e, w, s.tx, s.behaviour);
        Done(Commit(r.world, rules.eip158), Add(gas, r.gasUsed))
  }

  lemma {:induction false} AcceptedRest(run: Machine, b: Built, s: T.Step, txs: seq<T.Step>)
    requires AllAccepted(run, b, [s] + txs)
    ensures run(b.world, b.gasUsed, s).Done?
    ensures var r := run(b.world, b.gasUsed, s); AllAccepted(run, Built(r.world, r.gasUsed), txs)
    decreases |txs|
  {
    if txs == [] {
      assert [s] + txs == [] + [s];
      ApplyMore(run, b, [], s);
    } else {
      var front, last := txs[..|txs| - 1], txs[|txs| - 1];
      assert [s] + txs == ([s] + front) + [last] && txs == front + [last];
      ApplyMore(run, b, [s] + front, last);
      AcceptedRest(run, b, s, front);
      var r := run(b.world, b.gasUsed, s);
      ApplyFirst(run, b, s, front);
      ApplyMore(run, Built(r.world, r.gasUsed), front, last);
    }
  }

  lemma ExecutiveStep(rules: Frames.Rules, env: T.Env, w: World, txs: seq<T.Step>, r: Executed, out: World)
    requires txs != [] && r == Executive(rules, env.author, env.gasLimit)(w, env.gasUsed, txs[0]) && r.Done?
    requires out == T.RunAll(rules, env.(gasUsed := r.gasUsed), r.world, txs[1..]).world
    ensures out == T.RunAll(rules, env, w, txs).world
  {
    assert T.Env(env.author, env.gasLimit, env.gasUsed) == env;
  }

  /** Building a block with the executive is running its transactions one after the other. */
  lemma {:induction false} ApplyIsRunAll(rules: Frames.Rules, env: T.Env, w: World, txs: seq<T.Step>, run: Machine)
    requires run == Executive(rules, env.author, env.gasLimit)
    requires AllAccepted(run, Built(w, env.gasUsed), txs)
    ensures Apply(run, Built(w, env.gasUsed), txs).world == T.RunAll(rules, env, w, txs).world
    decreases |txs|
  {
    if txs != [] {
      var r, out := FirstRun(run, w, env.gasUsed, txs);
      ApplyIsRunAll(rules, env.(gasUsed := r.gasUsed), r.world, txs[1..], run);
      ExecutiveStep(rules, env, w, txs, r, out);
    }
  }

  lemma FirstRun(run: Machine, w: World, gas: u256, txs: seq<T.Step>) returns (r: Executed, out: World)
    requires txs != [] && AllAccepted(run, Built(w, gas), txs)
    ensures r == run(w, gas, txs[0]) && r.Done? && AllAccepted(run, Built(r.world, r.gasUsed), txs[1..])
    ensures out == Apply(run, Built(w, gas), txs).world == Apply(run, Built(r.world, r.gasUsed), txs[1..]).world
  {
    var s, rest := txs[0], txs[1..];
    assert txs == [s] + rest;
    AcceptedRest(run, Built(w, gas), s, rest);
    ApplyFirst(run, Built(w, gas), s, rest);
    r := run(w, gas, s);
    out := Apply(run, Built(w, gas), txs).world;
  }
}
