/**
 A transaction from `initialize` through `execute` to `finalize`, and the transactions of a block one after the other.
 */
module Transactions {
  import opened Words
  import opened Journal
  import opened Ether
  import opened Frames

  /** `baseGas` is the intrinsic gas of the transaction under the schedule of the block. */
  datatype Tx = Tx(sender: Address, creation: bool, to: Address, value: u256, gas: u256, gasPrice: u256, nonce: u256,
                   baseGas: nat, zeroSignature: bool)

  datatype Env = Env(author: Address, gasLimit: u256, gasUsed: u256)

  /** What the machine will do with the transaction. */
  datatype Behaviour = Behaviour(newAddress: Address, noInit: bool, pre: Precompile, body: Script)

  datatype Refusal = InvalidSignature | InvalidZeroSignature | OutOfGasIntrinsic | BlockGasLimitReached | InvalidNonce
                   | InsufficientCash

  datatype Check = Accepted | Refused(why: Refusal)

  /** The checks of verifyTransaction and initialize, in their order. */
  ghost function Verify(rules: Rules, env: Env, w: World, tx: Tx): Check {
    if tx.zeroSignature && !rules.constantinople then Refused(InvalidSignature)
    else if tx.zeroSignature && (tx.value != 0 || tx.gasPrice != 0 || tx.nonce != 0) then Refused(InvalidZeroSignature)
    else if tx.gas < tx.baseGas then Refused(OutOfGasIntrinsic)
    else if env.gasLimit < env.gasUsed + tx.gas then Refused(BlockGasLimitReached)
    else if tx.zeroSignature then Accepted
    else if tx.nonce != w.NonceOf(tx.sender) then Refused(InvalidNonce)
    else if w.BalanceOf(tx.sender) < tx.value + Times(tx.gas, tx.gasPrice) then Refused(InsufficientCash)
    else Accepted
  }

  /** `a * b` as repeated addition, which keeps nonlinear arithmetic out of the proofs that do not need it. */
  ghost function Times(a: nat, b: nat): nat { if a == 0 then 0 else b + Times(a - 1, b) }

  ghost function Product(a: u256, b: u256): u256 { Times(a, b) % TWO_256 }

  ghost function GasCost(tx: Tx): u256 { if tx.zeroSignature then 0 else Product(tx.gas, tx.gasPrice) }

  /** The gas the outermost frame starts with. */
  function StartGas(tx: Tx): nat
    requires tx.baseGas <= tx.gas
  {
    tx.gas - tx.baseGas
  }

  /** The outermost frame of a transaction, whose gas has been paid for. */
  function Outermost(rules: Rules, w: World, tx: Tx, b: Behaviour): Frame
    requires tx.baseGas <= tx.gas
  {
    if tx.creation then RunCreate(rules, w, tx.sender, b.newAddress, tx.value, StartGas(tx), 0, b.noInit, b.body)
    else RunCall(rules, Bump(rules, w, tx.sender), tx.sender, tx.to, tx.to, tx.value, StartGas(tx), 0, b.pre, b.body)
  }

  /** Refunds are capped at half of the gas consumed. */
  function RefundFor(rules: Rules, tx: Tx, left: nat, sub: SubState): (r: nat)
    requires left <= tx.gas
    ensures 2 * r <= tx.gas - left
  {
    Min((tx.gas - left) / 2, Add(sub.refunds, SuicideCredit(rules, |sub.suicides|)))
  }

  /** One refund for every suicide, on 256 bits. */
  function SuicideCredit(rules: Rules, suicides: nat): u256 {
    if suicides == 0 then 0 else Add(SuicideCredit(rules, suicides - 1), rules.suicideRefund % TWO_256)
  }

  /** The gas left after the refund. */
  function LeftAfter(rules: Rules, tx: Tx, frame: Frame): (r: u256)
    requires frame.gas <= tx.gas
    ensures frame.gas <= r <= tx.gas && r - frame.gas <= tx.gas - r
  {
    frame.gas + RefundFor(rules, tx, frame.gas, frame.sub)
  }

  /** Refund the sender for the gas left and pay the author for the gas used. */
  ghost function Settle(env: Env, w: World, tx: Tx, left: u256): World
    requires left <= tx.gas
  {
    AddBalance(AddBalance(w, tx.sender, Product(left, tx.gasPrice)), env.author, Product(tx.gas - left, tx.gasPrice))
  }

  function KillAll(w: World, suicides: set<Address>): World {
    w.(accounts := map a | a in w.accounts ::
                     if a in suicides then Account(false, 0, 0, [], map[], map[]) else w.accounts[a],
       dirty := w.dirty + (suicides * w.accounts.Keys))
  }

  /** `destroyed` is what suicides to themselves burned and what killed accounts still held. */
  datatype Outcome = Outcome(world: World, gasUsed: u256, refunded: nat, destroyed: nat, logs: seq<Bytes>, ok: bool)

  ghost function Held(w: World, suicides: set<Address>): nat {
    Total(map a | a in w.accounts && a in suicides :: w.accounts[a])
  }

  /** Settle the gas, of which `left` is left after the refund, and process the suicides. */
  ghost function Finalize(env: Env, tx: Tx, frame: Frame, left: nat): Outcome
    requires frame.gas <= left <= tx.gas
  {
    FinalOutcome(tx, frame, left, Settle(env, frame.world, tx, left))
  }

  ghost function FinalOutcome(tx: Tx, frame: Frame, left: nat, settled: World): Outcome
    requires frame.gas <= left <= tx.gas
  {
    Outcome(KillAll(settled, frame.sub.suicides), tx.gas - left, left - frame.gas,
            frame.burned + Held(settled, frame.sub.suicides), frame.sub.logs, frame.ok)
  }

  ghost function PayForGas(w: World, tx: Tx): World {
    if NotEnoughCash(w, tx.sender, GasCost(tx)) then w else SubBalance(w, tx.sender, GasCost(tx))
  }

  /** A transaction that was accepted, from the payment for its gas to the end. */
  ghost function RunTx(rules: Rules, env: Env, w: World, tx: Tx, b: Behaviour): Outcome
    requires Verify(rules, env, w, tx).Accepted?
  {
    RunTxBehind(LAYERS, rules, env, w, tx, b)
  }

  /** The layers only keep proofs about many transactions from looking inside each of them. */
  const LAYERS: nat := 2

  ghost function RunTxBehind(layers: nat, rules: Rules, env: Env, w: World, tx: Tx, b: Behaviour): Outcome
    requires Verify(rules, env, w, tx).Accepted?
    decreases layers
  {
    if 0 < layers then RunTxBehind(layers - 1, rules, env, w, tx, b)
    else
      var frame := Outermost(rules, PayForGas(w, tx), tx, b);
      if tx.gas < frame.gas || NotEnoughCash(w, tx.sender, GasCost(tx)) then Outcome(frame.world, 0, 0, 0, [], false)
      else Finalize(env, tx, frame, LeftAfter(rules, tx, frame))
  }

  // ---------------------------------------------------------------- the transactions of a block

  datatype Step = Step(tx: Tx, behaviour: Behaviour)

  /** `receipts` holds the cumulative gas of each transaction that was executed. */
  datatype Ran = Ran(world: World, receipts: seq<u256>, destroyed: nat)

  /** Transactions that are refused leave no trace; the state is committed after each of the others. */
  ghost function RunAll(rules: Rules, env: Env, w: World, steps: seq<Step>): Ran
    decreases |steps|
  {
    if steps == [] then Ran(w, [], 0)
    else if Verify(rules, env, w, steps[0].tx).Refused? then RunAll(rules, env, w, steps[1..])
    else
      var r := RunTx(rules, env, w, steps[0].tx, steps[0].behaviour);
      var used := Add(env.gasUsed, r.gasUsed);
      var rest := RunAll(rules, env.(gasUsed := used), Commit(r.world, rules.eip158), steps[1..]);
      Ran(rest.world, [used] + rest.receipts, r.destroyed + rest.destroyed)
  }
}
