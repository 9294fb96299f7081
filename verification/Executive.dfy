/**
 `Executive` and `ExtVM` as the code has them: objects that share one State and change it step by step.  Each frame, run
 on the cached, evicting State, does exactly what module Frames says.
 */
module Executive {
  import opened Words
  import opened Journal
  import opened JournalUndo
  import opened Ether
  import opened Frames
  import opened FrameProofs
  import opened StateCache

  /** Dirty accounts are never evicted. */
  lemma DirtyIsCached(s: State, a: Address)
    requires a in s.Abs().dirty
    ensures a in s.cache
  {
  }

  lemma CallAllowed(vm: Vm, me: Address, caller: Address, script: Script)
    requires script.Call? && Fit(vm, me) && CallValue(script) <= vm.world.BalanceOf(me)
    ensures Sound(vm.world) && !NotEnoughCash(vm.world, CallSender(script, me, caller), CallValue(script))
    ensures vm.world.CodeOf(script.target) != [] ==> CanStore(vm.world, CallReceiver(script, me))
  {
  }

  lemma CreateAllowed(vm: Vm, me: Address, script: Script)
    requires script.Create? && Fit(vm, me) && script.endowment <= vm.world.BalanceOf(me)
    ensures Sound(vm.world) && !NotEnoughCash(vm.world, me, script.endowment)
  {
  }

  lemma StepFit(rules: Rules, me: Address, caller: Address, depth: nat, script: Script, vm: Vm, paid: Vm)
    requires Fit(vm, me) && !Stops(script) && Price(script) <= vm.gas && paid == vm.(gas := vm.gas - Price(script))
    ensures Fit(paid, me) && Fit(Effect(rules, me, caller, depth, script, paid), me)
  {
    var vm' := EffectFit(rules, me, caller, depth, script, vm);
  }

  /** A call that is not to a precompiled contract, once the value is paid. */
  lemma CallUnfold(rules: Rules, w: World, sender: Address, codeAddress: Address, receiver: Address, value: u256,
                   gas: nat, depth: nat, pre: Precompile, body: Script, start: Vm)
    requires codeAddress !in rules.precompiled && !NotEnoughCash(w, sender, value)
    requires w.CodeOf(codeAddress) != [] ==> CanStore(w, receiver)
    requires start == Vm(PayIn(w, sender, receiver, value), gas, NO_SUBSTATE, 0, true)
    ensures w.CodeOf(codeAddress) == [] ==>
              RunCall(rules, w, sender, codeAddress, receiver, value, gas, depth, pre, body)
              == Frame(start.world, gas, NO_SUBSTATE, 0, true, NoException)
    ensures w.CodeOf(codeAddress) != [] ==>
              var r := Exec(rules, receiver, sender, depth, body, start);
              RunCall(rules, w, sender, codeAddress, receiver, value, gas, depth, pre, body)
              == Frames.Conclude(r.0, r.1, |w.log|)
  {
  }

  lemma CallReady(w: World, sender: Address, codeAddress: Address, receiver: Address, value: u256, gas: nat, start: Vm)
    requires Sound(w) && !NotEnoughCash(w, sender, value)
    requires w.CodeOf(codeAddress) != [] ==> CanStore(w, receiver)
    requires start == Vm(PayIn(w, sender, receiver, value), gas, NO_SUBSTATE, 0, true)
    ensures Steps(w, start.world) && (w.CodeOf(codeAddress) != [] ==> Fit(start, receiver))
  {
    PayInSteps(w, sender, receiver, value);
    StepsSound(w, start.world);
    if w.CodeOf(codeAddress) != [] {
      StepsCanStore(w, start.world, receiver);
    }
  }

  /** A creation at a free address, once its account is set up. */
  lemma CreateUnfold(rules: Rules, w: World, sender: Address, newAddress: Address, endowment: u256, gas: nat,
                     depth: nat, noInit: bool, body: Script, w': World)
    requires w.CodeOf(newAddress) == [] && w.NonceOf(newAddress) == 0 && !NotEnoughCash(w, sender, endowment)
    requires w' == NewContract(rules, w, sender, newAddress, endowment) && Sound(w)
    ensures noInit ==> CreateAt(rules, w, sender, newAddress, endowment, gas, depth, noInit, body)
                       == Frame(w', gas, NO_SUBSTATE, 0, true, NoException)
    ensures !noInit ==>
              var r := Exec(rules, newAddress, sender, depth, body,
                            Vm(ClearAt(w', newAddress), gas, NO_SUBSTATE, 0, true));
              var d := Deposit(rules, newAddress, r.0, r.1);
              CreateAt(rules, w, sender, newAddress, endowment, gas, depth, noInit, body)
              == Frames.Conclude(d.0, d.1, |w.log|)
  {
    CreateClears(rules, w, sender, newAddress, endowment, w');
  }

  lemma CreateClears(rules: Rules, w: World, sender: Address, newAddress: Address, endowment: u256, w': World)
    requires Sound(w) && !NotEnoughCash(w, sender, endowment) && w.CodeOf(newAddress) == []
    requires w' == NewContract(rules, w, sender, newAddress, endowment)
    ensures MayClear(w', newAddress)
  {
    CreateReady(rules, w, sender, newAddress, endowment, w');
  }

  /** What holds of the world once a new contract's account is set up. */
  lemma CreateReady(rules: Rules, w: World, sender: Address, newAddress: Address, endowment: u256, w': World)
    requires Sound(w) && !NotEnoughCash(w, sender, endowment) && w.CodeOf(newAddress) == []
    requires w' == NewContract(rules, w, sender, newAddress, endowment)
    ensures Steps(w, w') && Total(w'.accounts) == Total(w.accounts) && MayClear(w', newAddress)
    ensures newAddress in w'.accounts && newAddress in w'.dirty && w'.accounts[newAddress].code == []
  {
    NewContractSteps(rules, w, sender, newAddress, endowment);
    NewContractExists(rules, w, sender, newAddress, endowment);
    StepsSound(w, w');
    assert TidyAt(w', newAddress);
  }

  /** A frame that can run initialisation code, with its savepoint at the world `w`. */
  ghost predicate InitFit(w: World, vm: Vm, a: Address) {
    && Steps(w, vm.world) && Fit(vm, a) && a in vm.world.dirty && vm.world.accounts[a].base == map[]
  }

  lemma InitReady(w: World, w': World, a: Address, start: Vm)
    requires Sound(w) && Steps(w, w') && Total(w'.accounts) == Total(w.accounts)
    requires a in w'.accounts && a in w'.dirty && w'.accounts[a].code == []
    requires start.world == ClearAt(w', a) && start.ok
    ensures MayClear(w', a) && InitFit(w, start, a)
  {
    StepsSound(w, w');
    ClearSteps(w', a);
    StepsSound(w', start.world);
    StepsTrans(w, w', ClearAt(w', a));
  }

  lemma InitDone(rules: Rules, w: World, start: Vm, vm: Vm, a: Address, ending: Ending)
    requires InitFit(w, start, a) && Progress(start, vm)
    ensures a in vm.world.accounts && a in vm.world.dirty
    ensures |w.log| <= |Deposit(rules, a, vm, ending).0.world.log|
  {
    StepsSound(start.world, vm.world);
    DepositSound(rules, a, start, vm, ending);
    StepsSound(w, start.world);
    StepsSound(start.world, Deposit(rules, a, vm, ending).0.world);
    StepsTrans(w, start.world, Deposit(rules, a, vm, ending).0.world);
  }

  class Executive {
    const s: State
    const rules: Rules
    const depth: nat
    var gas: nat
    var sub: SubState
    var excepted: Excepted
    /** What the State shows. */
    ghost var world: World
    /** Ether destroyed by suicides that name themselves as heir. */
    ghost var burned: nat

    /** The State is open and shows `world`.  The layers keep callers from having to look at how. */
    ghost predicate Attached(layers: nat)
      reads this`world, s
    {
      if layers == 0 then s.Open() && s.Abs() == world else Attached(layers - 1)
    }

    ghost predicate Valid()
      reads this`world, s
    {
      Attached(3)
    }

    lemma Unseal()
      requires Valid()
      ensures s.Open() && s.Abs() == world
    {
      assert Attached(2) && Attached(1) && Attached(0);
    }

    lemma Seal()
      requires s.Open() && s.Abs() == world
      ensures Valid()
    {
      assert Attached(0) && Attached(1) && Attached(2);
    }

    constructor (s: State, rules: Rules, depth: nat)
      requires s.Open()
      ensures Valid() && world == s.Abs() && this.s == s && this.rules == rules && this.depth == depth
      ensures gas == 0 && sub == NO_SUBSTATE && excepted == NoException && burned == 0
    {
      this.s, this.rules, this.depth := s, rules, depth;
      gas, sub, excepted, burned, world := 0, NO_SUBSTATE, NoException, 0, s.Abs();
      new;
      Seal();
    }

    // -------------------------------------------------------------- the State, through the frame

    method Balance(a: Address) returns (b: u256)
      requires Valid()
      modifies s
      ensures Valid() && b == world.BalanceOf(a)
    {
      Unseal();
      b := s.Balance(a);
      Seal();
    }

    method Nonce(a: Address) returns (n: u256)
      requires Valid()
      modifies s
      ensures Valid() && n == world.NonceOf(a)
    {
      Unseal();
      n := s.GetNonce(a);
      Seal();
    }

    method CodeAt(a: Address) returns (code: Bytes)
      requires Valid()
      modifies s
      ensures Valid() && code == world.CodeOf(a)
    {
      Unseal();
      code := s.Code(a);
      Seal();
    }

    method Touch(a: Address, amount: u256)
      requires Valid()
      modifies this`world, s
      ensures Valid() && world == AddBalance(old(world), a, amount)
    {
      Unseal();
      s.AddBalance(a, amount);
      world := s.Abs();
      Seal();
    }

    method EmptyBalance(a: Address)
      requires Valid()
      modifies this`world, s
      ensures Valid() && world == SetBalance(old(world), a, 0)
    {
      Unseal();
      s.SetBalance(a, 0);
      world := s.Abs();
      Seal();
    }

    /** Move the endowment of a frame. */
    method Pay(from: Address, to: Address, value: u256)
      requires Valid() && !NotEnoughCash(world, from, value)
      modifies this`world, s
      ensures Valid() && world == PayIn(old(world), from, to, value)
    {
      Unseal();
      var ok := s.TransferBalance(from, to, value);
      world := s.Abs();
      Seal();
    }

    method Charge(a: Address, value: u256)
      requires Valid() && !NotEnoughCash(world, a, value)
      modifies this`world, s
      ensures Valid() && world == SubBalance(old(world), a, value)
    {
      Unseal();
      var ok := s.SubBalance(a, value);
      world := s.Abs();
      Seal();
    }

    method BumpNonce(a: Address)
      requires Valid()
      modifies this`world, s
      ensures Valid() && world == IncNonce(old(world), a)
    {
      Unseal();
      s.IncNonce(a);
      world := s.Abs();
      Seal();
    }

    /** A new contract's nonce. */
    method StartNonce(a: Address)
      requires Valid()
      modifies this`world, s
      ensures Valid()
      ensures var first := old(world).startNonce;
              world == SetNonce(old(world), a, if rules.eip158 then Add(first, 1) else first)
    {
      Unseal();
      s.SetNonce(a, if rules.eip158 then Add(s.startNonce, 1) else s.startNonce);
      world := s.Abs();
      Seal();
    }

    method SetStore(a: Address, k: u256, v: u256)
      requires Valid() && a in world.accounts
      modifies this`world, s
      ensures Valid() && world == SetStorage(old(world), a, k, v)
    {
      Unseal();
      s.SetStorage(a, k, v);
      world := s.Abs();
      Seal();
    }

    method ClearStore(a: Address)
      requires Valid() && a in world.dirty && MayClear(world, a)
      modifies this`world, s
      ensures Valid() && world == ClearAt(old(world), a)
    {
      Unseal();
      DirtyIsCached(s, a);
      s.ClearStorage(a);
      world := s.Abs();
      Seal();
    }

    method Deploy(a: Address, code: Bytes)
      requires Valid() && a in world.accounts && a in world.dirty
      modifies this`world, s
      ensures Valid() && world == SetCode(old(world), a, code)
    {
      Unseal();
      s.SetCode(a, code);
      world := s.Abs();
      Seal();
    }

    method Savepoint() returns (n: nat)
      requires Valid()
      ensures n == |world.log|
    {
      Unseal();
      n := s.Savepoint();
    }

    method Back(savepoint: nat)
      requires Valid() && savepoint <= |world.log|
      modifies this`world, s
      ensures Valid() && world == Unwind(old(world), savepoint)
    {
      Unseal();
      UnwindIsRollback(world, savepoint);
      s.Rollback(savepoint);
      world := s.Abs();
      Seal();
    }

    // -------------------------------------------------------------- frames

    /** The running frame. */
    ghost function Running(): Vm
      reads this
    {
      Vm(world, gas, sub, burned, true)
    }

    /** The frame once it has ended. */
    ghost function Result(): Frame
      reads this
    {
      Frame(world, gas, sub, burned, true, excepted)
    }

    /** ExtVM::suicide. */
    method Suicide(me: Address, heir: Address)
      requires Valid()
      modifies this, s
      ensures Valid() && Running() == AfterSuicide(old(Running()), me, heir)
    {
      var balance := Balance(me);
      burned := burned + if heir == me then balance else 0;
      sub := sub.(suicides := sub.suicides + {me});
      Touch(heir, balance);
      EmptyBalance(me);
    }

    /** Take everything back to the savepoint, unless the frame returned. */
    method Conclude(ending: Ending, savepoint: nat)
      requires Valid() && savepoint <= |world.log|
      modifies this, s
      ensures Valid() && Result() == Frames.Conclude(old(Running()), ending, savepoint)
      ensures ending.Returned? ==>
                && excepted == NoException && world == old(world) && gas == old(gas)
                && sub == old(sub) && burned == old(burned)
      ensures ending.RevertedByScript? ==> excepted == RevertInstruction && gas == old(gas)
      ensures ending.Faulted? ==> excepted == VmException && gas == 0
    {
      match ending
      case Returned(_) =>
        excepted := NoException;
      case RevertedByScript =>
        Back(savepoint);
        sub, excepted, burned := NO_SUBSTATE, RevertInstruction, 0;
      case Faulted =>
        Back(savepoint);
        gas, sub, excepted, burned := 0, NO_SUBSTATE, VmException, 0;
    }

    /** A call of a precompiled contract. */
    method Precompiled(sender: Address, codeAddress: Address, receiver: Address, value: u256, given: nat,
                       pre: Precompile)
      requires Valid() && !NotEnoughCash(world, sender, value)
      modifies this, s
      ensures Valid()
      ensures Result() == RunPrecompiled(rules, old(world), sender, codeAddress, receiver, value, given, pre)
    {
      sub, burned := NO_SUBSTATE, 0;
      if given < pre.cost {
        gas, excepted := 0, OutOfGasBase;
        if rules.eip158 {
          Touch(codeAddress, 0);
        }
        return;
      }
      if !pre.succeeds {
        gas, excepted := 0, OutOfGas;
        return;
      }
      gas, excepted := given - pre.cost, NoException;
      Pay(sender, receiver, value);
    }

    /** `Executive::call`, and `go` where there is code to run. */
    method Call(sender: Address, codeAddress: Address, receiver: Address, value: u256, given: nat, pre: Precompile,
                body: Script)
      requires Valid() && Sound(world) && !NotEnoughCash(world, sender, value)
      requires world.CodeOf(codeAddress) != [] ==> CanStore(world, receiver)
      modifies this, s
      ensures Valid()
      ensures Result() == RunCall(rules, old(world), sender, codeAddress, receiver, value, given, depth, pre, body)
      decreases body, 4
    {
      if codeAddress in rules.precompiled {
        Precompiled(sender, codeAddress, receiver, value, given, pre);
        return;
      }
      var savepoint := Savepoint();
      var code := CodeAt(codeAddress);
      CallCode(code, sender, codeAddress, receiver, value, given, savepoint, pre, body);
    }

    /** Pay and run the code that was found, if any. */
    method CallCode(code: Bytes, sender: Address, ghost codeAddress: Address, receiver: Address, value: u256,
                    given: nat, savepoint: nat, ghost pre: Precompile, body: Script)
      requires Valid() && Sound(world) && !NotEnoughCash(world, sender, value)
      requires code == world.CodeOf(codeAddress) && (code != [] ==> CanStore(world, receiver))
      requires codeAddress !in rules.precompiled && savepoint == |world.log|
      modifies this, s
      ensures Valid()
      ensures Result() == RunCall(rules, old(world), sender, codeAddress, receiver, value, given, depth, pre, body)
      decreases body, 3, 1
    {
      ghost var w := world;
      Pay(sender, receiver, value);
      gas, sub, excepted, burned := given, NO_SUBSTATE, NoException, 0;
      ghost var start := Running();
      CallUnfold(rules, w, sender, codeAddress, receiver, value, given, depth, pre, body, start);
      if code != [] {
        CallReady(w, sender, codeAddress, receiver, value, given, start);
        RunCode(sender, receiver, savepoint, w, body);
      }
    }

    /** Run the code of a contract and conclude. */
    method RunCode(sender: Address, receiver: Address, savepoint: nat, ghost w: World, body: Script)
      requires Valid() && savepoint == |w.log| && Steps(w, world) && Fit(Running(), receiver)
      modifies this, s
      ensures Valid()
      ensures var r := Exec(rules, receiver, sender, depth, body, old(Running()));
              Result() == Frames.Conclude(r.0, r.1, |w.log|)
      decreases body, 3, 0
    {
      ghost var start := Running();
      ExecSound(rules, receiver, sender, depth, body, start);
      var ending := Go(receiver, sender, body);
      StepsTrans(w, start.world, world);
      StepsSound(w, world);
      Conclude(ending, savepoint);
    }

    /** Run a script. */
    method Go(me: Address, caller: Address, script: Script) returns (ending: Ending)
      requires Valid() && Fit(Running(), me)
      modifies this, s
      ensures Valid() && (Running(), ending) == Exec(rules, me, caller, depth, script, old(Running()))
      decreases script, 2, 0
    {
      if script.Halt? {
        return Returned(script.output);
      }
      if script.Revert? {
        return RevertedByScript;
      }
      if script.Fault? || gas < Price(script) {
        return Faulted;
      }
      ending := GoOn(me, caller, script);
    }

    /** Pay for the next effect, let it happen, and run the rest. */
    method GoOn(me: Address, caller: Address, script: Script) returns (ending: Ending)
      requires Valid() && Fit(Running(), me) && !Stops(script) && Price(script) <= gas
      modifies this, s
      ensures Valid() && (Running(), ending) == Exec(rules, me, caller, depth, script, old(Running()))
      decreases script, 1, 1
    {
      ghost var before := Running();
      PaidStep(me, caller, script);
      ending := Go(me, caller, script.rest);
      ExecUnfold(rules, me, caller, depth, script, before);
    }

    method PaidStep(me: Address, caller: Address, script: Script)
      requires Valid() && Fit(Running(), me) && !Stops(script) && Price(script) <= gas
      modifies this, s
      ensures Valid() && Fit(Running(), me)
      ensures Running() == Effect(rules, me, caller, depth, script, old(Running()).(gas := old(gas) - Price(script)))
      decreases script, 1, 0
    {
      ghost var paid := Running().(gas := gas - Price(script));
      StepFit(rules, me, caller, depth, script, Running(), paid);
      gas := gas - Price(script);
      assert Running() == paid;
      Step(me, caller, script);
    }

    /** The next effect of a script, already paid for. */
    method Step(me: Address, caller: Address, script: Script)
      requires Valid() && Fit(Running(), me) && !Stops(script)
      modifies this, s
      ensures Valid() && Running() == Effect(rules, me, caller, depth, script, old(Running()))
      decreases script, 0, 1
    {
      match script
      case Spend(_, _) =>
      case Store(k, v, _) =>
        SetStore(me, k, v);
      case Emit(entry, _) =>
        sub := sub.(logs := sub.logs + [entry]);
      case Refund(credit, _) =>
        sub := sub.(refunds := Add(sub.refunds, credit));
      case Suicide(heir, _) =>
        Suicide(me, heir);
      case Call(_, _, _, _, _, _, _, _, _) =>
        ExtCall(me, caller, script);
      case Create(_, _, _, _, _, _, _) =>
        ExtCreate(me, script);
    }

    /** ExtVM::call. */
    method ExtCall(me: Address, caller: Address, script: Script)
      requires Valid() && Fit(Running(), me) && script.Call?
      modifies this, s
      ensures Valid() && Running() == AfterCall(rules, me, caller, depth, script, old(Running()))
      decreases script, 0, 0
    {
      var balance := Balance(me);
      if balance < CallValue(script) || DEPTH_LIMIT <= depth {
        gas := gas + CallGas(script);
        return;
      }
      ghost var vm := Running();
      CallAllowed(vm, me, caller, script);
      ghost var frame := Nested(CallSender(script, me, caller), script.target, CallReceiver(script, me),
                                CallValue(script), CallGas(script), script.pre, script.body);
      AfterCallUnfold(rules, me, caller, depth, script, vm, frame);
    }

    /** A new frame for a call, and what it leaves. */
    method Nested(sender: Address, codeAddress: Address, receiver: Address, value: u256, given: nat, pre: Precompile,
                  body: Script)
      returns (ghost frame: Frame)
      requires Valid() && Sound(world) && !NotEnoughCash(world, sender, value)
      requires world.CodeOf(codeAddress) != [] ==> CanStore(world, receiver)
      modifies this, s
      ensures Valid() && Running() == Resume(old(Running()), frame)
      ensures frame == RunCall(rules, old(world), sender, codeAddress, receiver, value, given, depth + 1, pre, body)
      decreases body, 5
    {
      Unseal();
      var callee := new Executive(s, rules, depth + 1);
      callee.Call(sender, codeAddress, receiver, value, given, pre, body);
      frame := callee.Result();
      CallSound(rules, world, sender, codeAddress, receiver, value, given, depth + 1, pre, body);
      Adopt(callee);
    }

    /** Go on after a nested frame. */
    method Adopt(callee: Executive)
      requires callee != this && callee.s == s && callee.Valid()
      modifies this
      ensures Valid() && Running() == Resume(old(Running()), callee.Result())
    {
      callee.Unseal();
      world := callee.world;
      gas := gas + callee.gas;
      sub := sub.Accrue(callee.sub);
      burned := burned + callee.burned;
      Seal();
    }

    /** ExtVM::create. */
    method ExtCreate(me: Address, script: Script)
      requires Valid() && Fit(Running(), me) && script.Create?
      modifies this, s
      ensures Valid() && Running() == AfterCreate(rules, me, depth, script, old(Running()))
      decreases script, 0, 0, 1
    {
      var balance := Balance(me);
      if balance < script.endowment || DEPTH_LIMIT <= depth {
        gas := gas + script.give;
        return;
      }
      EnterCreate(me, script);
    }

    method EnterCreate(me: Address, script: Script)
      requires Valid() && Fit(Running(), me) && script.Create?
      requires script.endowment <= world.BalanceOf(me) && depth < DEPTH_LIMIT
      modifies this, s
      ensures Valid() && Running() == AfterCreate(rules, me, depth, script, old(Running()))
      decreases script, 0, 0, 0
    {
      ghost var vm := Running();
      CreateAllowed(vm, me, script);
      ghost var frame := NestedCreate(me, script.newAddress, script.endowment, script.give, script.noInit, script.body);
      AfterCreateUnfold(rules, me, depth, script, vm, frame);
    }

    /** A new frame for a creation, and what it leaves. */
    method NestedCreate(sender: Address, newAddress: Address, endowment: u256, given: nat, noInit: bool, body: Script)
      returns (ghost frame: Frame)
      requires Valid() && Sound(world) && !NotEnoughCash(world, sender, endowment)
      modifies this, s
      ensures Valid() && Running() == Resume(old(Running()), frame)
      ensures frame == RunCreate(rules, old(world), sender, newAddress, endowment, given, depth + 1, noInit, body)
      decreases body, 5
    {
      Unseal();
      var created := new Executive(s, rules, depth + 1);
      created.Create(sender, newAddress, endowment, given, noInit, body);
      frame := created.Result();
      Adopt(created);
    }

    /** `executeCreate`: the nonce is bumped before the savepoint. */
    method Create(sender: Address, newAddress: Address, endowment: u256, given: nat, noInit: bool, body: Script)
      requires Valid() && Sound(world) && !NotEnoughCash(world, sender, endowment)
      modifies this, s
      ensures Valid()
      ensures Result() == RunCreate(rules, old(world), sender, newAddress, endowment, given, depth, noInit, body)
      decreases body, 4
    {
      BumpSound(rules, world, sender);
      BumpBalance(rules, world, sender, sender);
      if sender != MAX_ADDRESS || !rules.constantinople {
        BumpNonce(sender);
      }
      CreateFrom(sender, newAddress, endowment, given, noInit, body);
    }

    /** `executeCreate` from its savepoint on, and `go` where there is initialisation code. */
    method CreateFrom(sender: Address, newAddress: Address, endowment: u256, given: nat, noInit: bool, body: Script)
      requires Valid() && Sound(world) && !NotEnoughCash(world, sender, endowment)
      modifies this, s
      ensures Valid()
      ensures Result() == CreateAt(rules, old(world), sender, newAddress, endowment, given, depth, noInit, body)
      decreases body, 3, 2
    {
      var savepoint := Savepoint();
      sub, excepted, burned := NO_SUBSTATE, NoException, 0;
      var code := CodeAt(newAddress);
      var nonce := Nonce(newAddress);
      if code != [] || nonce > 0 {
        gas, excepted := 0, AddressAlreadyUsed;
        return;
      }
      SetUp(sender, newAddress, endowment, given, savepoint, noInit, body);
    }

    /** Set up the account of a new contract and run the initialisation code, if any. */
    method SetUp(sender: Address, newAddress: Address, endowment: u256, given: nat, savepoint: nat, noInit: bool,
                 body: Script)
      requires Valid() && Sound(world) && !NotEnoughCash(world, sender, endowment)
      requires world.CodeOf(newAddress) == [] && world.NonceOf(newAddress) == 0
      requires sub == NO_SUBSTATE && excepted == NoException && burned == 0 && savepoint == |world.log|
      modifies this, s
      ensures Valid()
      ensures Result() == CreateAt(rules, old(world), sender, newAddress, endowment, given, depth, noInit, body)
      decreases body, 3, 1
    {
      gas := given;
      ghost var w := world;
      OpenAccount(sender, newAddress, endowment);
      CreateUnfold(rules, w, sender, newAddress, endowment, given, depth, noInit, body, world);
      if !noInit {
        CreateReady(rules, w, sender, newAddress, endowment, world);
        Initialise(sender, newAddress, savepoint, w, body);
      }
    }

    method OpenAccount(sender: Address, newAddress: Address, endowment: u256)
      requires Valid() && !NotEnoughCash(world, sender, endowment)
      modifies this`world, s
      ensures Valid() && world == NewContract(rules, old(world), sender, newAddress, endowment)
    {
      Pay(sender, newAddress, endowment);
      StartNonce(newAddress);
    }

    /** Run the initialisation code and deploy what it returns. */
    method Initialise(sender: Address, newAddress: Address, savepoint: nat, ghost w: World, body: Script)
      requires Valid() && savepoint == |w.log| && Sound(w) && Steps(w, world)
      requires Total(world.accounts) == Total(w.accounts)
      requires newAddress in world.accounts && newAddress in world.dirty && world.accounts[newAddress].code == []
      modifies this, s
      ensures Valid()
      ensures var start := old(Running()).(world := ClearAt(old(world), newAddress));
              var r := Exec(rules, newAddress, sender, depth, body, start);
              var d := Deposit(rules, newAddress, r.0, r.1);
              Result() == Frames.Conclude(d.0, d.1, |w.log|)
      decreases body, 3, 0
    {
      ghost var cleared := Running().(world := ClearAt(world, newAddress));
      InitReady(w, world, newAddress, cleared);
      ClearStore(newAddress);
      var ending := RunInit(sender, newAddress, w, body);
      Conclude(ending, savepoint);
    }

    /** Run the initialisation code on the cleared account and deposit the code. */
    method RunInit(sender: Address, newAddress: Address, ghost w: World, body: Script) returns (ending: Ending)
      requires Valid() && InitFit(w, Running(), newAddress)
      modifies this, s
      ensures Valid() && |w.log| <= |world.log|
      ensures var r := Exec(rules, newAddress, sender, depth, body, old(Running()));
              (Running(), ending) == Deposit(rules, newAddress, r.0, r.1)
      decreases body, 2, 1
    {
      ghost var start := Running();
      ExecSound(rules, newAddress, sender, depth, body, start);
      ending := Go(newAddress, sender, body);
      InitDone(rules, w, start, Running(), newAddress, ending);
      ending := DepositCode(newAddress, ending);
    }

    /** Charge for the code a creation returned and deploy it. */
    method DepositCode(me: Address, ending: Ending) returns (ending': Ending)
      requires Valid() && me in world.accounts && me in world.dirty
      modifies this, s
      ensures Valid() && (Running(), ending') == Deposit(rules, me, old(Running()), ending)
    {
      if !ending.Returned? {
        return ending;
      }
      if DepositFails(rules, gas, ending.output) {
        return Faulted;
      }
      var deposited := Deposited(rules, gas, ending.output);
      gas := deposited.0;
      Deploy(me, deposited.1);
      ending' := ending;
    }
  }
}
