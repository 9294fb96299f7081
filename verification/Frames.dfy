/**
 Message calls and contract creation: what `Executive::call`, `executeCreate` and `go` and their nested use through
 `ExtVM::call`, `create` and `suicide` do to the world, the gas and the substate.

 The virtual machine itself is arbitrary: it is any finite script of the effects a machine can have, with its nested
 frames.  Prices, new addresses and the results of precompiled contracts are parameters of the script, too.
 */
module Frames {
  import opened Words
  import opened Journal
  import opened JournalUndo
  import opened Ether

  const MAX_ADDRESS: Address := 0xffff_ffff_ffff_ffff_ffff_ffff_ffff_ffff_ffff_ffff
  const DEPTH_LIMIT := 1024

  /** The chain rules in force in a block. */
  datatype Rules = Rules(eip158: bool, constantinople: bool, strictDeposit: bool, createDataGas: nat,
                         maxCodeSize: nat, suicideRefund: nat, precompiled: set<Address>)

  datatype SubState = SubState(suicides: set<Address>, logs: seq<Bytes>, refunds: u256)
  {
    function Accrue(child: SubState): SubState {
      SubState(suicides + child.suicides, logs + child.logs, Add(refunds, child.refunds))
    }
  }

  const NO_SUBSTATE := SubState({}, [], 0)

  /** CALL, CALLCODE, DELEGATECALL and STATICCALL. */
  datatype CallKind = PlainCall | CallCode | DelegateCall | StaticCall

  /** What a precompiled contract asks for and whether it succeeds. */
  datatype Precompile = Precompile(cost: nat, succeeds: bool)

  datatype Script =
    | Halt(output: Bytes)
    | Revert
    | Fault
    | Spend(amount: nat, rest: Script)
    | Store(key: u256, value: u256, rest: Script)
    | Emit(entry: Bytes, rest: Script)
    | Refund(credit: u256, rest: Script)
    | Suicide(heir: Address, rest: Script)
    /** Beyond `give`, the caller pays `fee` and the `stipend` the callee gets on top. */
    | Call(kind: CallKind, target: Address, endowment: u256, fee: nat, give: nat, stipend: nat, pre: Precompile,
           body: Script, rest: Script)
    | Create(newAddress: Address, endowment: u256, fee: nat, give: nat, noInit: bool, body: Script, rest: Script)

  datatype Ending = Returned(output: Bytes) | RevertedByScript | Faulted

  /**
   A running frame.  `burned` counts the ether destroyed by suicides that name themselves as heir; `ok` turns false if
   a caller's contract of the State operations is ever broken.
   */
  datatype Vm = Vm(world: World, gas: nat, sub: SubState, burned: nat, ok: bool)

  /** TransactionException, as far as frames raise it. */
  datatype Excepted = NoException | RevertInstruction | OutOfGasBase | OutOfGas | AddressAlreadyUsed | VmException

  datatype Frame = Frame(world: World, gas: nat, sub: SubState, burned: nat, ok: bool, excepted: Excepted)

  // ---------------------------------------------------------------- State operations and their contracts

  /** The address the nonce is bumped for: everyone but the EIP-86 pseudo sender. */
  function Bump(rules: Rules, w: World, sender: Address): World {
    if sender != MAX_ADDRESS || !rules.constantinople then IncNonce(w, sender) else w
  }

  function PayIn(w: World, from: Address, to: Address, v: u256): World {
    if NotEnoughCash(w, from, v) then w else Transfer(w, from, to, v)
  }

  function StoreAt(w: World, a: Address, k: u256, v: u256): World {
    if a in w.accounts then SetStorage(w, a, k, v) else w
  }

  function ClearAt(w: World, a: Address): World { if a in w.accounts then ClearStorage(w, a) else w }

  function DeployAt(w: World, a: Address, code: Bytes): World { if a in w.accounts then SetCode(w, a, code) else w }

  // ---------------------------------------------------------------- frames

  predicate Stops(script: Script) { script.Halt? || script.Revert? || script.Fault? }

  /** What the next effect of a script costs before anything happens. */
  function Price(script: Script): nat {
    match script
    case Spend(amount, _) => amount
    case Call(_, _, _, fee, give, stipend, _, _, _) => fee + stipend + give
    case Create(_, _, fee, give, _, _, _) => fee + give
    case _ => 0
  }

  /** Run a script to its end; running out of gas is a fault. */
  function Exec(rules: Rules, me: Address, caller: Address, depth: nat, script: Script, vm: Vm): (Vm, Ending)
    decreases script, 2
  {
    if script.Halt? then (vm, Returned(script.output))
    else if script.Revert? then (vm, RevertedByScript)
    else if script.Fault? || vm.gas < Price(script) then (vm, Faulted)
    else Exec(rules, me, caller, depth, script.rest,
              Effect(rules, me, caller, depth, script, vm.(gas := vm.gas - Price(script))))
  }

  /** The next effect of a script, already paid for. */
  function Effect(rules: Rules, me: Address, caller: Address, depth: nat, script: Script, vm: Vm): Vm
    requires !Stops(script)
    decreases script, 1
  {
    match script
    case Spend(_, _) => vm
    case Store(k, v, _) => vm.(world := StoreAt(vm.world, me, k, v), ok := vm.ok && me in vm.world.accounts)
    case Emit(entry, _) => vm.(sub := vm.sub.(logs := vm.sub.logs + [entry]))
    case Refund(credit, _) => vm.(sub := vm.sub.(refunds := Add(vm.sub.refunds, credit)))
    case Suicide(heir, _) => AfterSuicide(vm, me, heir)
    case Call(_, _, _, _, _, _, _, _, _) => AfterCall(rules, me, caller, depth, script, vm)
    case Create(_, _, _, _, _, _, _) => AfterCreate(rules, me, depth, script, vm)
  }

  /** The value a call moves: delegate and static calls move none. */
  function CallValue(script: Script): u256
    requires script.Call?
  {
    if script.kind.PlainCall? || script.kind.CallCode? then script.endowment else 0
  }

  /** The gas a callee starts with. */
  function CallGas(script: Script): nat
    requires script.Call?
  {
    script.give + script.stipend
  }

  function CallSender(script: Script, me: Address, caller: Address): Address
    requires script.Call?
  {
    if script.kind.DelegateCall? then caller else me
  }

  function CallReceiver(script: Script, me: Address): Address
    requires script.Call?
  {
    if script.kind.PlainCall? || script.kind.StaticCall? then script.target else me
  }

  /** ExtVM::call, if the caller can afford it and the depth allows it; otherwise the gas comes back. */
  function AfterCall(rules: Rules, me: Address, caller: Address, depth: nat, script: Script, vm: Vm): Vm
    requires script.Call?
    decreases script, 0
  {
    if vm.world.BalanceOf(me) < CallValue(script) || DEPTH_LIMIT <= depth then vm.(gas := vm.gas + CallGas(script))
    else
      Resume(vm, RunCall(rules, vm.world, CallSender(script, me, caller), script.target,
                         CallReceiver(script, me), CallValue(script), CallGas(script), depth + 1, script.pre,
                         script.body))
  }

  /** ExtVM::create, under the same conditions. */
  function AfterCreate(rules: Rules, me: Address, depth: nat, script: Script, vm: Vm): Vm
    requires script.Create?
    decreases script, 0
  {
    if vm.world.BalanceOf(me) < script.endowment || DEPTH_LIMIT <= depth then vm.(gas := vm.gas + script.give)
    else
      Resume(vm, RunCreate(rules, vm.world, me, script.newAddress, script.endowment, script.give, depth + 1,
                           script.noInit, script.body))
  }

  function AfterSuicide(vm: Vm, me: Address, heir: Address): Vm {
    vm.(world := Bequeath(vm.world, me, heir),
        sub := vm.sub.(suicides := vm.sub.suicides + {me}),
        burned := vm.burned + if heir == me then vm.world.BalanceOf(me) else 0)
  }

  /** The calling frame goes on with what the callee left. */
  function Resume(vm: Vm, frame: Frame): Vm {
    Vm(frame.world, vm.gas + frame.gas, vm.sub.Accrue(frame.sub), vm.burned + frame.burned, vm.ok && frame.ok)
  }

  /**
   `Executive::call` from its savepoint on, with `go` where there is code to run.  A call that starts a transaction has
   its sender's nonce bumped before, others bump none.
   */
  function RunCall(rules: Rules, w: World, sender: Address, codeAddress: Address, receiver: Address, value: u256,
                   gas: nat, depth: nat, pre: Precompile, body: Script): Frame
    decreases body, 4
  {
    if codeAddress in rules.precompiled then
      RunPrecompiled(rules, w, sender, codeAddress, receiver, value, gas, pre)
    else
      var ok := !NotEnoughCash(w, sender, value);
      var w' := PayIn(w, sender, receiver, value);
      if w.CodeOf(codeAddress) == [] then
        Frame(w', gas, NO_SUBSTATE, 0, ok, NoException)
      else
        var start := Vm(w', gas, NO_SUBSTATE, 0, ok && receiver in w.accounts);
        var (vm, ending) := Exec(rules, receiver, sender, depth, body, start);
        Conclude(vm, ending, |w.log|)
  }

  /** A precompiled contract that cannot be paid for is still touched, from EIP-158 on. */
  function RunPrecompiled(rules: Rules, w: World, sender: Address, codeAddress: Address, receiver: Address,
                          value: u256, gas: nat, pre: Precompile): Frame
  {
    if gas < pre.cost then
      Frame(if rules.eip158 then AddBalance(w, codeAddress, 0) else w, 0, NO_SUBSTATE, 0, true, OutOfGasBase)
    else if !pre.succeeds then
      Frame(w, 0, NO_SUBSTATE, 0, true, OutOfGas)
    else
      Frame(PayIn(w, sender, receiver, value), gas - pre.cost, NO_SUBSTATE, 0, !NotEnoughCash(w, sender, value),
            NoException)
  }

  /** How `go` ends a frame: a revert or a fault takes everything back to the savepoint. */
  function Conclude(vm: Vm, ending: Ending, savepoint: nat): Frame {
    match ending
    case Returned(_) => Frame(vm.world, vm.gas, vm.sub, vm.burned, vm.ok, NoException)
    case RevertedByScript => Frame(Unwind(vm.world, savepoint), vm.gas, NO_SUBSTATE, 0, vm.ok, RevertInstruction)
    case Faulted => Frame(Unwind(vm.world, savepoint), 0, NO_SUBSTATE, 0, vm.ok, VmException)
  }

  /** `executeCreate`: the creator's nonce is bumped first and stays so. */
  function RunCreate(rules: Rules, w: World, sender: Address, newAddress: Address, endowment: u256, gas: nat,
                     depth: nat, noInit: bool, body: Script): Frame
    decreases body, 4
  {
    CreateAt(rules, Bump(rules, w, sender), sender, newAddress, endowment, gas, depth, noInit, body)
  }

  /** `executeCreate` from its savepoint on, with `go` where there is initialisation code. */
  function CreateAt(rules: Rules, w: World, sender: Address, newAddress: Address, endowment: u256, gas: nat,
                    depth: nat, noInit: bool, body: Script): Frame
    decreases body, 3
  {
    if w.CodeOf(newAddress) != [] || w.NonceOf(newAddress) > 0 then
      Frame(w, 0, NO_SUBSTATE, 0, true, AddressAlreadyUsed)
    else
      var ok := !NotEnoughCash(w, sender, endowment);
      var w' := NewContract(rules, w, sender, newAddress, endowment);
      if noInit then
        Frame(w', gas, NO_SUBSTATE, 0, ok, NoException)
      else
        var start := Vm(ClearAt(w', newAddress), gas, NO_SUBSTATE, 0, ok && MayClear(w', newAddress));
        var (vm, ending) := Exec(rules, newAddress, sender, depth, body, start);
        var (vm', ending') := Deposit(rules, newAddress, vm, ending);
        Conclude(vm', ending', |w.log|)
  }

  function NewContract(rules: Rules, w: World, sender: Address, newAddress: Address, endowment: u256): World {
    SetNonce(PayIn(w, sender, newAddress, endowment), newAddress,
             if rules.eip158 then Add(w.startNonce, 1) else w.startNonce)
  }

  /** Too much code, or code that cannot be paid for where that is an error. */
  predicate DepositFails(rules: Rules, gas: nat, output: Bytes) {
    rules.maxCodeSize < |output| || (gas < |output| * rules.createDataGas && rules.strictDeposit)
  }

  /** The gas left and the code deployed; code that cannot be paid for is dropped. */
  function Deposited(rules: Rules, gas: nat, output: Bytes): (r: (nat, Bytes))
    ensures r.0 <= gas
  {
    var price := |output| * rules.createDataGas;
    if price <= gas then (gas - price, output) else (gas, [])
  }

  /** Charge for the code a creation returned and deploy it. */
  function Deposit(rules: Rules, me: Address, vm: Vm, ending: Ending): (Vm, Ending) {
    if !ending.Returned? then (vm, ending)
    else if DepositFails(rules, vm.gas, ending.output) then (vm, Faulted)
    else
      var (gas, code) := Deposited(rules, vm.gas, ending.output);
      (Deployed(me, vm.(gas := gas), code), ending)
  }

  function Deployed(me: Address, vm: Vm, code: Bytes): Vm {
    vm.(world := DeployAt(vm.world, me, code), ok := vm.ok && me in vm.world.accounts && me in vm.world.dirty)
  }
}
