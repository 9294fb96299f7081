/** Ether over whole blocks: what enacting a block, and then one after the other, does to the sum of all balances. */
module BlockEther {
  import opened Words
  import opened Journal
  import opened Ether
  import opened Frames
  import opened FrameProofs
  import opened Uncles
  import opened BlockBuild
  import T = Transactions
  import opened TransactionProofs
  import Tree = BlockTree

  /** What a block mints: its own reward, what its uncles get, and a thirty-second of the reward for each of them. */
  function Minted(number: nat, reward: u256, us: seq<Header>): int {
    UnclesMinted(number, reward, us) + reward + |us| * (reward / 32)
  }

  /** A block as far as enacting it goes. */
  datatype Body = Body(hash: Tree.Hash, previous: Tree.Hash, number: nat, author: Address, gasLimit: u256, reward: u256,
                       txs: seq<T.Step>, uncles: seq<Header>)

  ghost function EnvOf(body: Body): T.Env { T.Env(body.author, body.gasLimit, 0) }

  ghost function RunOf(rules: Rules, body: Body): Machine { Executive(rules, body.author, body.gasLimit) }

  /** The world after enacting a block on the world `w`. */
  ghost function Enacted(rules: Rules, w: World, body: Body): World {
    Commit(Rewarded(Apply(RunOf(rules, body), Built(w, 0), body.txs).world, body.number, body.author, body.reward,
                    body.uncles), rules.eip158)
  }

  /** What its transactions destroyed. */
  ghost function Destroyed(rules: Rules, w: World, body: Body): nat {
    T.RunAll(rules, EnvOf(body), w, body.txs).destroyed
  }

  /** Enact accepts the block: its transactions, each with intrinsic gas, and its uncles. */
  ghost predicate Acceptable(rules: Rules, c: Chain, w: World, body: Body)
    requires ChainOk(c)
  {
    && body.previous in c.tree && body.number == c.tree[body.previous].number + 1
    && AllAccepted(RunOf(rules, body), Built(w, 0), body.txs)
    && (forall i :: 0 <= i < |body.txs| ==> 0 < body.txs[i].tx.baseGas)
    && |body.uncles| <= 2
    && CheckEach(c, body.previous, {body.previous} + KinAbove(c, body.previous, GENERATIONS) + {body.hash}, body.uncles)
       == Fine
  }

  /** Accepted uncles are close enough for their rewards to be plain sums. */
  lemma AcceptedModerate(rules: Rules, c: Chain, w: World, body: Body)
    requires ChainOk(c) && Acceptable(rules, c, w, body) && body.reward < TWO_256 / 16
    ensures Moderate(body.number, body.reward, body.uncles)
  {
    var kin := {body.previous} + KinAbove(c, body.previous, GENERATIONS);
    CheckEachMeans(c, body.previous, kin + {body.hash}, body.uncles);
  }

  lemma TransactionsConserve(rules: Rules, c: Chain, w: World, body: Body) returns (w1: World)
    requires ChainOk(c) && Acceptable(rules, c, w, body) && Sound(w)
    ensures w1 == Apply(RunOf(rules, body), Built(w, 0), body.txs).world
    ensures Sound(w1) && Total(w1.accounts) + Destroyed(rules, w, body) == Total(w.accounts)
  {
    w1 := T.RunAll(rules, EnvOf(body), w, body.txs).world;
    ApplyIsRunAll(rules, EnvOf(body), w, body.txs, RunOf(rules, body));
    BlockConserves(rules, EnvOf(body), w, body.txs);
  }

  lemma {:induction false} RewardUnclesAlive(w: World, number: nat, reward: u256, us: seq<Header>)
    requires AllAlive(w)
    ensures AllAlive(RewardUncles(w, number, reward, us))
    decreases |us|
  {
    if us != [] {
      RewardUnclesAlive(w, number, reward, us[..|us| - 1]);
    }
  }

  lemma RewardedAlive(w: World, number: nat, author: Address, reward: u256, us: seq<Header>)
    requires AllAlive(w)
    ensures NoDeadEther(Rewarded(w, number, author, reward, us))
  {
    RewardUnclesAlive(w, number, reward, us);
  }

  /**
   Whatever its transactions do: the sum of all balances after a block, and what its transactions destroyed, is the sum
   before and what the block mints.
   */
  lemma EnactedConserves(rules: Rules, c: Chain, w: World, body: Body)
    requires ChainOk(c) && Acceptable(rules, c, w, body) && Sound(w) && body.reward < TWO_256 / 16
    requires Total(w.accounts) + Minted(body.number, body.reward, body.uncles) < TWO_256
    ensures Total(Enacted(rules, w, body).accounts) + Destroyed(rules, w, body)
            == Total(w.accounts) + Minted(body.number, body.reward, body.uncles)
    ensures Sound(Enacted(rules, w, body))
  {
    AcceptedModerate(rules, c, w, body);
    var w1 := TransactionsConserve(rules, c, w, body);
    TidyAlive(w1);
    RewardsMint(w1, body.number, body.author, body.reward, body.uncles);
    RewardedAlive(w1, body.number, body.author, body.reward, body.uncles);
    CommitSound(Rewarded(w1, body.number, body.author, body.reward, body.uncles), rules.eip158);
  }

  // ---------------------------------------------------------------- one block after the other

  ghost function EnactAll(rules: Rules, w: World, bodies: seq<Body>): World
    decreases |bodies|
  {
    if bodies == [] then w else EnactAll(rules, Enacted(rules, w, bodies[0]), bodies[1..])
  }

  ghost function DestroyedBy(rules: Rules, w: World, bodies: seq<Body>): nat
    decreases |bodies|
  {
    if bodies == [] then 0
    else Destroyed(rules, w, bodies[0]) + DestroyedBy(rules, Enacted(rules, w, bodies[0]), bodies[1..])
  }

  function MintedBy(bodies: seq<Body>): int {
    if bodies == [] then 0 else Minted(bodies[0].number, bodies[0].reward, bodies[0].uncles) + MintedBy(bodies[1..])
  }

  /** Each block in turn is acceptable on the chain as it is then. */
  ghost predicate AllAcceptable(rules: Rules, chains: seq<Chain>, w: World, bodies: seq<Body>)
    decreases |bodies|
  {
    |chains| == |bodies| &&
    (bodies != [] ==>
       && ChainOk(chains[0]) && Acceptable(rules, chains[0], w, bodies[0]) && bodies[0].reward < TWO_256 / 16
       && AllAcceptable(rules, chains[1..], Enacted(rules, w, bodies[0]), bodies[1..]))
  }

  lemma {:induction false} MintedNotNegative(number: nat, reward: u256, us: seq<Header>)
    requires Moderate(number, reward, us)
    ensures 0 <= UnclesMinted(number, reward, us)
    decreases |us|
  {
    if us != [] {
      MintedNotNegative(number, reward, us[..|us| - 1]);
      UncleRewardExact(reward, number, us[|us| - 1].number);
    }
  }

  lemma BlockMintsSomething(rules: Rules, c: Chain, w: World, body: Body)
    requires ChainOk(c) && Acceptable(rules, c, w, body) && body.reward < TWO_256 / 16
    ensures 0 <= Minted(body.number, body.reward, body.uncles)
  {
    AcceptedModerate(rules, c, w, body);
    MintsSomething(body.number, body.reward, body.uncles);
  }

  lemma MintsSomething(number: nat, reward: u256, us: seq<Header>)
    requires Moderate(number, reward, us)
    ensures 0 <= Minted(number, reward, us)
  {
    MintedNotNegative(number, reward, us);
    NotNegative(|us|, reward / 32);
  }

  lemma NotNegative(n: nat, x: nat)
    ensures 0 <= n * x
  {
  }

  lemma {:induction false} MintedByNotNegative(rules: Rules, chains: seq<Chain>, w: World, bodies: seq<Body>)
    requires AllAcceptable(rules, chains, w, bodies)
    ensures 0 <= MintedBy(bodies)
    decreases |bodies|
  {
    if bodies != [] {
      BlockMintsSomething(rules, chains[0], w, bodies[0]);
      MintedByNotNegative(rules, chains[1..], Enacted(rules, w, bodies[0]), bodies[1..]);
    }
  }

  /** Over any number of blocks the supply grows by what is minted and shrinks by what is destroyed. */
  lemma {:induction false} SupplyOverBlocks(rules: Rules, chains: seq<Chain>, w: World, bodies: seq<Body>)
    requires AllAcceptable(rules, chains, w, bodies) && Sound(w) && Total(w.accounts) + MintedBy(bodies) < TWO_256
    ensures Total(EnactAll(rules, w, bodies).accounts) + DestroyedBy(rules, w, bodies)
            == Total(w.accounts) + MintedBy(bodies)
    ensures Sound(EnactAll(rules, w, bodies))
    decreases |bodies|
  {
    if bodies != [] {
      MintedByNotNegative(rules, chains[1..], Enacted(rules, w, bodies[0]), bodies[1..]);
      EnactedConserves(rules, chains[0], w, bodies[0]);
      SupplyOverBlocks(rules, chains[1..], Enacted(rules, w, bodies[0]), bodies[1..]);
    }
  }
}
