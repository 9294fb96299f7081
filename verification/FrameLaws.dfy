/**
 What a frame that ends well leaves for its caller to see, told without the functions that run it: balances, nonces,
 code, storage slots, gas, logs, refunds and suicides.
 */
module FrameLaws {
  import opened Words
  import opened Journal
  import opened Ether
  import opened WorldLaws
  import opened Frames
  import opened FrameProofs

  // ---------------------------------------------------------------- scripts without nested frames

  /** Only spends, stores, logs and refunds, up to the end. */
  predicate Plain(s: Script) {
    match s
    case Halt(_) => true
    case Revert => true
    case Fault => true
    case Spend(_, rest) => Plain(rest)
    case Store(_, _, rest) => Plain(rest)
    case Emit(_, rest) => Plain(rest)
    case Refund(_, rest) => Plain(rest)
    case Suicide(_, _) => false
    case Call(_, _, _, _, _, _, _, _, _) => false
    case Create(_, _, _, _, _, _, _) => false
  }

  function End(s: Script): Ending
    requires Plain(s)
  {
    match s
    case Halt(output) => Returned(output)
    case Revert => RevertedByScript
    case Fault => Faulted
    case _ => End(s.rest)
  }

  /** All that is spent. */
  function Cost(s: Script): nat
    requires Plain(s)
  {
    if Stops(s) then 0 else (if s.Spend? then s.amount else 0) + Cost(s.rest)
  }

  /** What is stored under `k`: the last value written, or what was there. */
  function Written(s: Script, k: u256, before: u256): u256
    requires Plain(s)
  {
    if Stops(s) then before
    else Written(s.rest, k, if s.Store? && s.key == k then s.value else before)
  }

  /** The entries logged, in order. */
  function Logs(s: Script): seq<Bytes>
    requires Plain(s)
  {
    if Stops(s) then [] else (if s.Emit? then [s.entry] else []) + Logs(s.rest)
  }

  /** The sum of the credits. */
  function Credits(s: Script): nat
    requires Plain(s)
  {
    if Stops(s) then 0 else (if s.Refund? then s.credit else 0) + Credits(s.rest)
  }

  /** `vm'` is `vm` after all effects of `s` on behalf of `me`. */
  ghost predicate AllDone(me: Address, s: Script, vm: Vm, vm': Vm)
    requires Plain(s)
  {
    && vm'.gas == vm.gas - Cost(s)
    && vm'.sub.logs == vm.sub.logs + Logs(s) && vm'.sub.suicides == vm.sub.suicides
    && vm'.sub.refunds == (vm.sub.refunds + Credits(s)) % TWO_256
    && vm'.burned == vm.burned
    && SlotsBecome(vm.world, vm'.world, me, k => Written(s, k, vm.world.StorageAt(me, k)))
  }

  lemma StoreDone(me: Address, s: Script, vm: Vm, vm': Vm)
    requires Plain(s) && s.Store? && me in vm.world.accounts
    requires AllDone(me, s.rest, vm.(world := SetStorage(vm.world, me, s.key, s.value)), vm')
    ensures AllDone(me, s, vm, vm')
  {
    SetStorageSeen(vm.world, me, s.key, s.value);
  }

  lemma QuietDone(me: Address, s: Script, vm: Vm, vm1: Vm, vm': Vm)
    requires Plain(s) && (s.Spend? || s.Emit? || s.Refund?) && AllDone(me, s.rest, vm1, vm')
    requires vm1.world == vm.world && vm1.gas == vm.gas - (if s.Spend? then s.amount else 0) && vm1.burned == vm.burned
    requires vm1.sub.logs == vm.sub.logs + (if s.Emit? then [s.entry] else [])
    requires vm1.sub.suicides == vm.sub.suicides
    requires vm1.sub.refunds == (vm.sub.refunds + if s.Refund? then s.credit else 0) % TWO_256
    ensures AllDone(me, s, vm, vm')
  {
    var more := if s.Refund? then s.credit else 0;
    AddedTwice(vm.sub.refunds, more, Credits(s.rest));
    assert forall k :: Written(s, k, vm.world.StorageAt(me, k)) == Written(s.rest, k, vm.world.StorageAt(me, k));
  }

  lemma AddedTwice(a: nat, b: nat, c: nat)
    ensures ((a + b) % TWO_256 + c) % TWO_256 == (a + (b + c)) % TWO_256
  {
    var q := (a + b) / TWO_256;
    assert (a + b) % TWO_256 + c == (a + (b + c)) - q * TWO_256;
    Shifted((a + b) % TWO_256 + c, q);
  }

  lemma {:induction false} Shifted(x: nat, q: nat)
    ensures (x + q * TWO_256) % TWO_256 == x % TWO_256
  {
    if q > 0 {
      Shifted(x, q - 1);
      assert x + q * TWO_256 == (x + (q - 1) * TWO_256) + TWO_256;
    }
  }

  /** A plain script that can be paid for has all its effects and ends as it says; another one faults. */
  lemma {:induction false} PlainRun(rules: Rules, me: Address, caller: Address, depth: nat, s: Script, vm: Vm)
    requires Plain(s) && me in vm.world.accounts
    ensures var (vm', ending) := Exec(rules, me, caller, depth, s, vm);
            if Cost(s) <= vm.gas then AllDone(me, s, vm, vm') && ending == End(s) else ending == Faulted
    decreases s, 1
  {
    if !Stops(s) && Price(s) <= vm.gas {
      PlainRunOn(rules, me, caller, depth, s, vm);
    }
  }

  lemma {:induction false} PlainRunOn(rules: Rules, me: Address, caller: Address, depth: nat, s: Script, vm: Vm)
    requires Plain(s) && me in vm.world.accounts && !Stops(s) && Price(s) <= vm.gas
    ensures var (vm', ending) := Exec(rules, me, caller, depth, s, vm);
            if Cost(s) <= vm.gas then AllDone(me, s, vm, vm') && ending == End(s) else ending == Faulted
    decreases s, 0
  {
    var paid := vm.(gas := vm.gas - Price(s));
    var vm1 := Effect(rules, me, caller, depth, s, paid);
    ExecUnfold(rules, me, caller, depth, s, vm);
    PlainRun(rules, me, caller, depth, s.rest, vm1);
    if Cost(s) <= vm.gas {
      EffectThenRest(rules, me, caller, depth, s, vm, vm1, Exec(rules, me, caller, depth, s.rest, vm1).0);
    }
  }

  lemma EffectThenRest(rules: Rules, me: Address, caller: Address, depth: nat, s: Script, vm: Vm, vm1: Vm, vm': Vm)
    requires Plain(s) && !Stops(s) && me in vm.world.accounts && Price(s) <= vm.gas
    requires vm1 == Effect(rules, me, caller, depth, s, vm.(gas := vm.gas - Price(s))) && AllDone(me, s.rest, vm1, vm')
    ensures AllDone(me, s, vm, vm')
  {
    if s.Store? {
      StoreStep(rules, me, caller, depth, s, vm, vm1, vm');
    } else {
      QuietDone(me, s, vm, vm1, vm');
    }
  }

  lemma StoreStep(rules: Rules, me: Address, caller: Address, depth: nat, s: Script, vm: Vm, vm1: Vm, vm': Vm)
    requires Plain(s) && s.Store? && me in vm.world.accounts && AllDone(me, s.rest, vm1, vm')
    requires vm1 == Effect(rules, me, caller, depth, s, vm)
    ensures AllDone(me, s, vm, vm')
  {
    var stored := vm.(world := SetStorage(vm.world, me, s.key, s.value));
    assert vm1.world == stored.world;
    StoreDone(me, s, vm, vm');
  }

  // ---------------------------------------------------------------- calls

  /** A call of an account without code moves the value and leaves the gas. */
  lemma CallWithoutCode(rules: Rules, w: World, sender: Address, codeAddress: Address, receiver: Address, value: u256,
                        gas: nat, depth: nat, pre: Precompile, body: Script, frame: Frame)
    requires frame == RunCall(rules, w, sender, codeAddress, receiver, value, gas, depth, pre, body)
    requires codeAddress !in rules.precompiled && w.CodeOf(codeAddress) == [] && !NotEnoughCash(w, sender, value)
    ensures frame.excepted == NoException && frame.gas == gas && frame.sub == NO_SUBSTATE && frame.burned == 0
    ensures Moves(w, frame.world, sender, receiver, value)
  {
    TransferSeen(w, sender, receiver, value);
  }

  /** A precompiled contract takes its cost and the value, or all gas and nothing else. */
  lemma PrecompiledSeen(rules: Rules, w: World, sender: Address, codeAddress: Address, receiver: Address, value: u256,
                        gas: nat, depth: nat, pre: Precompile, body: Script, frame: Frame)
    requires frame == RunCall(rules, w, sender, codeAddress, receiver, value, gas, depth, pre, body)
    requires codeAddress in rules.precompiled && !NotEnoughCash(w, sender, value)
    ensures gas < pre.cost ==> frame.excepted == OutOfGasBase && frame.gas == 0 && (!rules.eip158 ==> frame.world == w)
    ensures pre.cost <= gas && !pre.succeeds ==> frame.excepted == OutOfGas && frame.gas == 0 && frame.world == w
    ensures pre.cost <= gas && pre.succeeds ==>
              && frame.excepted == NoException && frame.gas == gas - pre.cost && frame.sub == NO_SUBSTATE
              && Moves(w, frame.world, sender, receiver, value)
  {
    TransferSeen(w, sender, receiver, value);
  }

  /** A run of code keeps what its last effect left if it returns, its gas alone if it reverts, and else nothing. */
  ghost predicate KeepsRun(frame: Frame, vm: Vm, ending: Ending) {
    && (ending.Returned? ==>
          && frame.excepted == NoException && frame.world == vm.world && frame.gas == vm.gas && frame.sub == vm.sub
          && frame.burned == vm.burned)
    && (ending.RevertedByScript? ==> frame.excepted == RevertInstruction && frame.gas == vm.gas)
    && (ending.Faulted? ==> frame.excepted == VmException && frame.gas == 0)
  }

  /** Whatever its script, a call of code starts with the value paid and keeps the run. */
  lemma CallKeeps(rules: Rules, w: World, sender: Address, codeAddress: Address, receiver: Address, value: u256,
                  gas: nat, depth: nat, pre: Precompile, body: Script, frame: Frame)
    returns (start: Vm, vm: Vm, ending: Ending)
    requires frame == RunCall(rules, w, sender, codeAddress, receiver, value, gas, depth, pre, body)
    requires codeAddress !in rules.precompiled && w.CodeOf(codeAddress) != [] && !NotEnoughCash(w, sender, value)
    requires receiver in w.accounts
    ensures Moves(w, start.world, sender, receiver, value)
    ensures start.gas == gas && start.sub == SubState({}, [], 0) && start.burned == 0
    ensures (vm, ending) == Exec(rules, receiver, sender, depth, body, start) && KeepsRun(frame, vm, ending)
  {
    TransferSeen(w, sender, receiver, value);
    start := Vm(PayIn(w, sender, receiver, value), gas, NO_SUBSTATE, 0, true);
    var r := Exec(rules, receiver, sender, depth, body, start);
    vm, ending := r.0, r.1;
  }

  /** The value is with the receiver and its slots hold the last values written; nothing else is read differently. */
  ghost predicate PaidAndWritten(w: World, w': World, from: Address, to: Address, v: u256, s: Script)
    requires Plain(s)
  {
    && MovesBalances(w, w', from, to, v)
    && (forall k {:trigger w'.StorageAt(to, k)} :: w'.StorageAt(to, k) == Written(s, k, w.StorageAt(to, k)))
    && SameSlots(w, w', {to}) && SameNonces(w, w', {}) && SameCodes(w, w', {})
  }

  lemma PaidThenWritten(w: World, w0: World, w': World, from: Address, to: Address, v: u256, s: Script)
    requires Plain(s) && Moves(w, w0, from, to, v)
    requires SlotsBecome(w0, w', to, k => Written(s, k, w0.StorageAt(to, k)))
    ensures PaidAndWritten(w, w', from, to, v, s)
  {
    BalancesAgain(w, w0, w', from, to, v);
  }

  lemma BalancesAgain(w: World, w0: World, w': World, from: Address, to: Address, v: u256)
    requires MovesBalances(w, w0, from, to, v) && SameBalances(w0, w', {})
    ensures MovesBalances(w, w', from, to, v)
  {
  }

  /**
   A call of code that does no more than spend, store, log and refund, as its caller sees it: the slots hold the last
   values written, the logs and credits are in the substate, the value is with the receiver, and the rest of the gas is
   left.
   */
  lemma CallSeen(rules: Rules, w: World, sender: Address, codeAddress: Address, receiver: Address, value: u256,
                  gas: nat, depth: nat, pre: Precompile, body: Script, frame: Frame)
    requires frame == RunCall(rules, w, sender, codeAddress, receiver, value, gas, depth, pre, body) && Plain(body)
    requires codeAddress !in rules.precompiled && w.CodeOf(codeAddress) != [] && !NotEnoughCash(w, sender, value)
    requires receiver in w.accounts
    ensures Cost(body) <= gas && End(body).Returned? ==>
              && frame.excepted == NoException && frame.gas == gas - Cost(body) && frame.burned == 0
              && frame.sub == SubState({}, Logs(body), Credits(body) % TWO_256)
              && PaidAndWritten(w, frame.world, sender, receiver, value, body)
    ensures Cost(body) <= gas && End(body).RevertedByScript? ==>
              frame.excepted == RevertInstruction && frame.gas == gas - Cost(body)
    ensures gas < Cost(body) || End(body).Faulted? ==> frame.excepted == VmException && frame.gas == 0
  {
    var start, vm, ending := CallKeeps(rules, w, sender, codeAddress, receiver, value, gas, depth, pre, body, frame);
    RunEnds(rules, receiver, sender, depth, body, start, vm, ending);
    if Cost(body) <= gas {
      PaidThenWritten(w, start.world, vm.world, sender, receiver, value, body);
    }
  }

  /** A plain run from an empty substate. */
  lemma RunEnds(rules: Rules, me: Address, caller: Address, depth: nat, s: Script, start: Vm, vm: Vm, ending: Ending)
    requires Plain(s) && me in start.world.accounts && start.sub == SubState({}, [], 0)
    requires (vm, ending) == Exec(rules, me, caller, depth, s, start)
    ensures start.gas < Cost(s) ==> ending == Faulted
    ensures Cost(s) <= start.gas ==>
              && ending == End(s) && vm.gas == start.gas - Cost(s) && vm.burned == start.burned
              && vm.sub == SubState({}, Logs(s), Credits(s) % TWO_256)
              && SlotsBecome(start.world, vm.world, me, k => Written(s, k, start.world.StorageAt(me, k)))
  {
    PlainRun(rules, me, caller, depth, s, start);
    assert [] + Logs(s) == Logs(s);
  }

  /** A stored value is there after the call. */
  lemma StoredByCall(rules: Rules, w: World, sender: Address, a: Address, gas: nat, depth: nat, pre: Precompile,
                     k: u256, v: u256, output: Bytes, frame: Frame)
    requires frame == RunCall(rules, w, sender, a, a, 0, gas, depth, pre, Store(k, v, Halt(output)))
    requires a !in rules.precompiled && w.CodeOf(a) != []
    ensures frame.excepted == NoException && frame.gas == gas && frame.world.StorageAt(a, k) == v
  {
    var body := Store(k, v, Halt(output));
    assert Plain(body.rest) && Cost(body.rest) == 0 && End(body.rest) == Returned(output);
    assert Written(body.rest, k, v) == v && Written(body, k, w.StorageAt(a, k)) == v;
    CallSeen(rules, w, sender, a, a, 0, gas, depth, pre, body, frame);
  }

  // ---------------------------------------------------------------- creations

  /** The code that is deployed for an output, and the gas left, if the rules allow the deployment. */
  ghost predicate Deploys(rules: Rules, gas: nat, output: Bytes, code: Bytes, left: int) {
    var price := |output| * rules.createDataGas;
    && (price <= gas ==> code == output && left == gas - price)
    && (gas < price ==> code == [] && left == gas)
  }

  /** Too much code, or code that cannot be paid for where that is an error. */
  ghost predicate Undeployable(rules: Rules, gas: nat, output: Bytes) {
    rules.maxCodeSize < |output| || (rules.strictDeposit && gas < |output| * rules.createDataGas)
  }

  lemma DeploymentSeen(rules: Rules, me: Address, vm: Vm, output: Bytes)
    requires me in vm.world.accounts
    ensures var (vm', ending) := Deposit(rules, me, vm, Returned(output));
            if Undeployable(rules, vm.gas, output) then vm' == vm && ending == Faulted
            else
              && ending == Returned(output) && Deploys(rules, vm.gas, output, vm'.world.CodeOf(me), vm'.gas)
              && CodeBecomes(vm.world, vm'.world, me, vm'.world.CodeOf(me))
              && vm'.sub == vm.sub && vm'.burned == vm.burned
  {
    SetCodeSeen(vm.world, me, Deposited(rules, vm.gas, output).1);
  }

  /** What the initialisation code finds: the endowment, the first nonce, no code and empty base storage. */
  ghost predicate NewAccountSeen(rules: Rules, w: World, w': World, sender: Address, a: Address, endowment: u256) {
    && MovesBalances(w, w', sender, a, endowment) && a in w'.accounts
    && w'.NonceOf(a) == (w.startNonce + if rules.eip158 then 1 else 0) % TWO_256
    && SameNonces(w, w', {a}) && SameCodes(w, w', {}) && SameSlots(w, w', {a})
  }

  /** The slots of an account whose base storage, if any, is cleared. */
  ghost function ClearedSlot(w: World, a: Address, k: u256): u256 {
    if a in w.accounts && w.accounts[a].base == map[] then w.StorageAt(a, k) else 0
  }

  lemma NewContractSeen(rules: Rules, w: World, sender: Address, a: Address, endowment: u256)
    requires !NotEnoughCash(w, sender, endowment)
    ensures var w' := NewContract(rules, w, sender, a, endowment);
            && NewAccountSeen(rules, w, w', sender, a, endowment)
            && (forall k :: w'.StorageAt(a, k) == w.StorageAt(a, k))
            && w'.accounts[a].base == if a in w.accounts then w.accounts[a].base else map[]
  {
    TransferSeen(w, sender, a, endowment);
    var nonce := if rules.eip158 then Add(w.startNonce, 1) else w.startNonce;
    var w1 := PayIn(w, sender, a, endowment);
    PaidBase(w, sender, a, endowment);
    SetNonceSeen(w1, a, nonce);
    BalancesAgain(w, w1, SetNonce(w1, a, nonce), sender, a, endowment);
  }

  lemma PaidBase(w: World, from: Address, a: Address, v: u256)
    requires !NotEnoughCash(w, from, v)
    ensures a in Transfer(w, from, a, v).accounts
    ensures Transfer(w, from, a, v).accounts[a].base == if a in w.accounts then w.accounts[a].base else map[]
  {
  }

  lemma InitStarts(rules: Rules, w: World, sender: Address, a: Address, endowment: u256) returns (w0: World)
    requires !NotEnoughCash(w, sender, endowment)
    ensures w0 == ClearAt(NewContract(rules, w, sender, a, endowment), a)
    ensures NewAccountSeen(rules, w, w0, sender, a, endowment)
    ensures forall k :: w0.StorageAt(a, k) == ClearedSlot(w, a, k)
  {
    var w' := NewContract(rules, w, sender, a, endowment);
    NewContractSeen(rules, w, sender, a, endowment);
    ClearStorageSeen(w', a);
    w0 := ClearAt(w', a);
  }

  /** A creation without initialisation code. */
  lemma CreateWithoutInit(rules: Rules, w: World, sender: Address, a: Address, endowment: u256, gas: nat, depth: nat,
                          body: Script, frame: Frame)
    requires frame == CreateAt(rules, w, sender, a, endowment, gas, depth, true, body)
    requires w.CodeOf(a) == [] && w.NonceOf(a) == 0 && !NotEnoughCash(w, sender, endowment)
    ensures frame.excepted == NoException && frame.gas == gas && frame.sub == NO_SUBSTATE && frame.burned == 0
    ensures NewAccountSeen(rules, w, frame.world, sender, a, endowment)
  {
    NewContractSeen(rules, w, sender, a, endowment);
  }

  /** Whatever its script, a creation starts with the new account and keeps the run and the code that it returns. */
  lemma CreateKeeps(rules: Rules, w: World, sender: Address, a: Address, endowment: u256, gas: nat, depth: nat,
                    body: Script, frame: Frame)
    returns (start: Vm, vm: Vm, ending: Ending)
    requires frame == CreateAt(rules, w, sender, a, endowment, gas, depth, false, body) && Sound(w)
    requires w.CodeOf(a) == [] && w.NonceOf(a) == 0 && !NotEnoughCash(w, sender, endowment)
    ensures NewAccountSeen(rules, w, start.world, sender, a, endowment)
    ensures forall k :: start.world.StorageAt(a, k) == ClearedSlot(w, a, k)
    ensures start.gas == gas && start.sub == SubState({}, [], 0) && start.burned == 0
    ensures (vm, ending) == Exec(rules, a, sender, depth, body, start)
    ensures a in vm.world.accounts
    ensures !ending.Returned? ==> KeepsRun(frame, vm, ending)
    ensures ending.Returned? && Undeployable(rules, vm.gas, ending.output) ==>
              frame.excepted == VmException && frame.gas == 0
    ensures ending.Returned? && !Undeployable(rules, vm.gas, ending.output) ==>
              && frame.excepted == NoException && frame.sub == vm.sub && frame.burned == vm.burned
              && Deploys(rules, vm.gas, ending.output, frame.world.CodeOf(a), frame.gas)
              && CodeBecomes(vm.world, frame.world, a, frame.world.CodeOf(a))
  {
    var w0 := InitStarts(rules, w, sender, a, endowment);
    var w' := NewContract(rules, w, sender, a, endowment);
    NewContractSteps(rules, w, sender, a, endowment);
    NewContractExists(rules, w, sender, a, endowment);
    StepsSound(w, w');
    ClearSteps(w', a);
    StepsSound(w', w0);
    StepsCanStore(w', w0, a);
    start := Vm(w0, gas, NO_SUBSTATE, 0, true);
    var r := Exec(rules, a, sender, depth, body, start);
    vm, ending := r.0, r.1;
    ExecSound(rules, a, sender, depth, body, start);
    StepsSound(w0, vm.world);
    if ending.Returned? {
      DeploymentSeen(rules, a, vm, ending.output);
    }
  }

  /** A creation whose initialisation code does no more than spend, store, log and refund, as its caller sees it. */
  lemma CreateSeen(rules: Rules, w: World, sender: Address, a: Address, endowment: u256, gas: nat, depth: nat,
                    body: Script, frame: Frame)
    requires frame == CreateAt(rules, w, sender, a, endowment, gas, depth, false, body) && Sound(w) && Plain(body)
    requires w.CodeOf(a) == [] && w.NonceOf(a) == 0 && !NotEnoughCash(w, sender, endowment)
    requires Cost(body) <= gas && End(body).Returned?
    ensures var output, left := End(body).output, gas - Cost(body);
            if Undeployable(rules, left, output) then frame.excepted == VmException && frame.gas == 0
            else
              && frame.excepted == NoException && frame.burned == 0
              && Deploys(rules, left, output, frame.world.CodeOf(a), frame.gas)
              && frame.sub == SubState({}, Logs(body), Credits(body) % TWO_256)
              && ContractSeen(rules, w, frame.world, sender, a, endowment, body)
  {
    var start, vm, ending := CreateKeeps(rules, w, sender, a, endowment, gas, depth, body, frame);
    RunEnds(rules, a, sender, depth, body, start, vm, ending);
    if !Undeployable(rules, gas - Cost(body), End(body).output) {
      NewThenWritten(rules, w, start.world, vm.world, frame.world, sender, a, endowment, body);
    }
  }

  /** The new contract has the endowment, the first nonce, and in its slots the last values written. */
  ghost predicate ContractSeen(rules: Rules, w: World, w': World, sender: Address, a: Address, endowment: u256,
                               s: Script)
    requires Plain(s)
  {
    && MovesBalances(w, w', sender, a, endowment)
    && w'.NonceOf(a) == (w.startNonce + if rules.eip158 then 1 else 0) % TWO_256
    && (forall k {:trigger w'.StorageAt(a, k)} :: w'.StorageAt(a, k) == Written(s, k, ClearedSlot(w, a, k)))
    && SameNonces(w, w', {a}) && SameCodes(w, w', {a}) && SameSlots(w, w', {a})
  }

  lemma NewThenWritten(rules: Rules, w: World, w0: World, w1: World, w': World, sender: Address, a: Address,
                       endowment: u256, s: Script)
    requires Plain(s) && NewAccountSeen(rules, w, w0, sender, a, endowment)
    requires forall k :: w0.StorageAt(a, k) == ClearedSlot(w, a, k)
    requires SlotsBecome(w0, w1, a, k => Written(s, k, w0.StorageAt(a, k)))
    requires CodeBecomes(w1, w', a, w'.CodeOf(a))
    ensures ContractSeen(rules, w, w', sender, a, endowment, s)
  {
    BalancesAgain(w, w0, w1, sender, a, endowment);
    BalancesAgain(w, w1, w', sender, a, endowment);
    assert forall k :: w'.StorageAt(a, k) == w1.StorageAt(a, k);
  }

  // ---------------------------------------------------------------- nested frames

  /** What the calling frame has after a callee: the callee's world, its gas back, and its substate on top. */
  ghost predicate Accrued(vm: Vm, frame: Frame, vm': Vm) {
    && vm'.world == frame.world && vm'.gas == vm.gas + frame.gas && vm'.burned == vm.burned + frame.burned
    && vm'.sub.logs == vm.sub.logs + frame.sub.logs && vm'.sub.suicides == vm.sub.suicides + frame.sub.suicides
    && vm'.sub.refunds == (vm.sub.refunds + frame.sub.refunds) % TWO_256
  }

  /** Everything but the amount of gas is as it was. */
  ghost predicate OnlyGas(vm: Vm, vm': Vm, gas: nat) {
    vm'.gas == gas && vm'.world == vm.world && vm'.sub == vm.sub && vm'.burned == vm.burned
  }

  /** An effect that can be paid for happens, and then the rest of the script. */
  lemma StepTaken(rules: Rules, me: Address, caller: Address, depth: nat, s: Script, vm: Vm)
    requires !Stops(s) && Price(s) <= vm.gas
    ensures Exec(rules, me, caller, depth, s, vm)
            == Exec(rules, me, caller, depth, s.rest,
                    Effect(rules, me, caller, depth, s, vm.(gas := vm.gas - Price(s))))
  {
    ExecUnfold(rules, me, caller, depth, s, vm);
  }

  /**
   A call pays its fee, the gas it gives and the stipend.  It is made if the caller has the value it sends and is not
   yet 1024 frames deep; otherwise gas and stipend come back.  Who sends, who receives and what is sent depends on the
   kind: delegate and static calls send nothing, delegate calls keep the sender, and the receiver of a call with
   borrowed code is the caller.
   */
  lemma NestedCall(rules: Rules, me: Address, caller: Address, depth: nat, s: Script, vm: Vm, paid: Vm)
    requires s.Call? && s.fee + s.give + s.stipend <= vm.gas && paid == vm.(gas := vm.gas - Price(s))
    ensures paid == vm.(gas := vm.gas - s.fee - s.give - s.stipend)
    ensures var value := if s.kind == PlainCall || s.kind == CallCode then s.endowment else 0;
            var sender := if s.kind == DelegateCall then caller else me;
            var receiver := if s.kind == PlainCall || s.kind == StaticCall then s.target else me;
            var vm' := AfterCall(rules, me, caller, depth, s, paid);
            if vm.world.BalanceOf(me) < value || 1024 <= depth then OnlyGas(vm, vm', vm.gas - s.fee)
            else
              Accrued(paid,
                      RunCall(rules, vm.world, sender, s.target, receiver, value, s.give + s.stipend, depth + 1, s.pre,
                              s.body),
                      vm')
  {
    if CallValue(s) <= vm.world.BalanceOf(me) && depth < DEPTH_LIMIT {
      var frame := RunCall(rules, vm.world, CallSender(s, me, caller), s.target, CallReceiver(s, me), CallValue(s),
                           CallGas(s), depth + 1, s.pre, s.body);
      AfterCallUnfold(rules, me, caller, depth, s, paid, frame);
      ResumeAccrues(paid, frame);
    }
  }

  lemma ResumeAccrues(vm: Vm, frame: Frame)
    ensures Accrued(vm, frame, Resume(vm, frame))
  {
  }

  /** A creation pays its fee and the gas it gives. */
  lemma NestedCreate(rules: Rules, me: Address, caller: Address, depth: nat, s: Script, vm: Vm, paid: Vm)
    requires s.Create? && s.fee + s.give <= vm.gas && paid == vm.(gas := vm.gas - Price(s))
    ensures paid == vm.(gas := vm.gas - s.fee - s.give)
    ensures var vm' := AfterCreate(rules, me, depth, s, paid);
            if vm.world.BalanceOf(me) < s.endowment || 1024 <= depth then OnlyGas(vm, vm', vm.gas - s.fee)
            else
              Accrued(paid,
                      RunCreate(rules, vm.world, me, s.newAddress, s.endowment, s.give, depth + 1, s.noInit, s.body),
                      vm')
  {
    if s.endowment <= vm.world.BalanceOf(me) && depth < DEPTH_LIMIT {
      var frame := RunCreate(rules, vm.world, me, s.newAddress, s.endowment, s.give, depth + 1, s.noInit, s.body);
      AfterCreateUnfold(rules, me, depth, s, paid, frame);
      ResumeAccrues(paid, frame);
    }
  }

  /** An effect is what its own function says. */
  lemma EffectIs(rules: Rules, me: Address, caller: Address, depth: nat, s: Script, vm: Vm)
    requires !Stops(s)
    ensures s.Call? ==> Effect(rules, me, caller, depth, s, vm) == AfterCall(rules, me, caller, depth, s, vm)
    ensures s.Create? ==> Effect(rules, me, caller, depth, s, vm) == AfterCreate(rules, me, depth, s, vm)
    ensures s.Suicide? ==> Effect(rules, me, caller, depth, s, vm) == AfterSuicide(vm, me, s.heir)
  {
  }

  /** The creator's nonce goes up by one, but for the pseudo sender from Constantinople on. */
  lemma CreatorBumped(rules: Rules, w: World, sender: Address, a: Address, endowment: u256, gas: nat, depth: nat,
                      noInit: bool, body: Script) returns (w0: World)
    ensures RunCreate(rules, w, sender, a, endowment, gas, depth, noInit, body)
            == CreateAt(rules, w0, sender, a, endowment, gas, depth, noInit, body)
    ensures if sender == 0xffff_ffff_ffff_ffff_ffff_ffff_ffff_ffff_ffff_ffff && rules.constantinople then w0 == w
            else NonceBecomes(w, w0, sender, (w.NonceOf(sender) + 1) % TWO_256)
  {
    w0 := Bump(rules, w, sender);
    IncNonceSeen(w, sender);
  }

  /** The balance of `me` is with the heir; its own heir has nothing. */
  ghost predicate Bequeathed(w: World, w': World, me: Address, heir: Address) {
    && w'.BalanceOf(me) == 0 && SameBalances(w, w', {me, heir})
    && (heir != me ==> w'.BalanceOf(heir) == (w.BalanceOf(heir) + w.BalanceOf(me)) % TWO_256)
    && SameNonces(w, w', {}) && SameCodes(w, w', {}) && SameSlots(w, w', {})
  }

  lemma BequeathSeen(w: World, me: Address, heir: Address)
    ensures Bequeathed(w, Bequeath(w, me, heir), me, heir)
  {
    var w1 := AddBalance(w, heir, w.BalanceOf(me));
    AddBalanceSeen(w, heir, w.BalanceOf(me));
    SetBalanceSeen(w1, me, 0);
    TwiceSet(w, w1, SetBalance(w1, me, 0), me, heir);
  }

  lemma TwiceSet(w: World, w1: World, w': World, me: Address, heir: Address)
    requires BalanceBecomes(w, w1, heir, (w.BalanceOf(heir) + w.BalanceOf(me)) % TWO_256)
    requires BalanceBecomes(w1, w', me, 0)
    ensures Bequeathed(w, w', me, heir)
  {
  }

  /** A suicide gives its balance to the heir and is listed. */
  lemma SuicideSeen(vm: Vm, me: Address, heir: Address)
    ensures var vm' := AfterSuicide(vm, me, heir);
            && Bequeathed(vm.world, vm'.world, me, heir) && vm'.gas == vm.gas
            && vm'.sub == SubState(vm.sub.suicides + {me}, vm.sub.logs, vm.sub.refunds)
            && vm'.burned == vm.burned + if heir == me then vm.world.BalanceOf(me) else 0
  {
    BequeathSeen(vm.world, me, heir);
  }
}
