/**
 For every script, whatever its tree of nested frames: the contracts of the State operations are met, gas never grows,
 ether is conserved, and a frame that reverts or faults leaves the accounts of its own savepoint and no substate.
 */
module FrameProofs {
  import opened Words
  import opened Journal
  import opened JournalUndo
  import opened Ether
  import opened Frames

  /** Only contracts, and accounts being created on an empty storage, have storage written or their nonce bumped. */
  predicate CanStore(w: World, a: Address) {
    a in w.accounts && (w.accounts[a].code != [] || (a in w.dirty && w.accounts[a].base == map[]))
  }

  /** So an account without code either has no base storage or has not been written to.  None is dead yet. */
  ghost predicate Tidy(w: World) { forall a {:trigger TidyAt(w, a)} :: TidyAt(w, a) }

  ghost predicate TidyAt(w: World, a: Address) {
    a in w.accounts ==>
      && w.accounts[a].alive
      && (w.accounts[a].code == [] ==> w.accounts[a].base == map[] || w.accounts[a].storage == w.accounts[a].base)
  }

  ghost predicate Keeps(w0: World, w1: World) { forall a {:trigger KeepsAt(w0, w1, a)} :: KeepsAt(w0, w1, a) }

  ghost predicate KeepsAt(w0: World, w1: World, a: Address) {
    a in w0.accounts ==>
      && a in w1.accounts
      && (w0.accounts[a].base == map[] ==> w1.accounts[a].base == map[])
      && (CanStore(w0, a) ==> CanStore(w1, a))
  }

  /** What any part of an execution does to the world. */
  ghost predicate Steps(w0: World, w1: World) { StepsBehind(STEP_LAYERS, w0, w1) }

  const STEP_LAYERS: nat := 2

  /** The layers only keep proofs about whole frames from looking inside each step. */
  ghost predicate StepsBehind(layers: nat, w0: World, w1: World) {
    if 0 < layers then StepsBehind(layers - 1, w0, w1) else StepsNow(w0, w1)
  }

  ghost predicate StepsNow(w0: World, w1: World) { Reverts(w0, w1) && Unmarks(w0, w1) && Tidy(w1) && Keeps(w0, w1) }

  lemma StepsParts(w0: World, w1: World)
    requires Steps(w0, w1)
    ensures Reverts(w0, w1) && Unmarks(w0, w1) && Tidy(w1) && Keeps(w0, w1)
  {
    assert StepsBehind(STEP_LAYERS - 1, w0, w1) && StepsBehind(STEP_LAYERS - 2, w0, w1);
  }

  lemma StepsMake(w0: World, w1: World)
    requires Reverts(w0, w1) && Unmarks(w0, w1) && Tidy(w1) && Keeps(w0, w1)
    ensures Steps(w0, w1)
  {
    assert StepsBehind(STEP_LAYERS - 2, w0, w1) && StepsBehind(STEP_LAYERS - 1, w0, w1);
  }

  /** What is most often needed of it. */
  lemma StepsSound(w0: World, w1: World)
    requires Steps(w0, w1)
    ensures Undoable(w0) && Undoable(w1) && Tidy(w1)
    ensures |w0.log| <= |w1.log| && w0.dirty <= w1.dirty && w0.accounts.Keys <= w1.accounts.Keys
  {
    StepsParts(w0, w1);
  }

  lemma StepsCanStore(w0: World, w1: World, a: Address)
    requires Steps(w0, w1) && a in w0.accounts
    ensures a in w1.accounts && (w0.accounts[a].base == map[] ==> w1.accounts[a].base == map[])
    ensures CanStore(w0, a) ==> CanStore(w1, a)
  {
    StepsParts(w0, w1);
    assert KeepsAt(w0, w1, a);
  }

  ghost predicate Sound(w: World) { Undoable(w) && Tidy(w) && Total(w.accounts) < TWO_256 }

  lemma StepsRefl(w: World)
    requires Undoable(w) && Tidy(w)
    ensures Steps(w, w)
  {
    RevertsRefl(w);
    UnmarksRefl(w);
    StepsMake(w, w);
  }

  lemma StepsTrans(w0: World, w1: World, w2: World)
    requires Steps(w0, w1) && Steps(w1, w2)
    ensures Steps(w0, w2)
  {
    StepsParts(w0, w1);
    StepsParts(w1, w2);
    RevertsTrans(w0, w1, w2);
    UnmarksTrans(w0, w1, w2);
    forall a
      ensures KeepsAt(w0, w2, a)
    {
      assert KeepsAt(w0, w1, a) && KeepsAt(w1, w2, a);
    }
    StepsMake(w0, w2);
  }

  /** Changes of nonce and balance, and new accounts, do not concern storage. */
  ghost predicate SameShape(w0: World, w1: World) {
    w0.accounts.Keys <= w1.accounts.Keys && forall a {:trigger ShapeAt(w0, w1, a)} :: ShapeAt(w0, w1, a)
  }

  ghost predicate ShapeAt(w0: World, w1: World, a: Address) {
    a in w1.accounts ==>
      if a in w0.accounts then
        && w1.accounts[a].code == w0.accounts[a].code && w1.accounts[a].base == w0.accounts[a].base
        && w1.accounts[a].storage == w0.accounts[a].storage && w1.accounts[a].alive == w0.accounts[a].alive
      else w1.accounts[a].base == map[] && w1.accounts[a].alive
  }

  lemma ShapeKeeps(w0: World, w1: World)
    requires Reverts(w0, w1) && Tidy(w0) && SameShape(w0, w1)
    ensures Tidy(w1) && Keeps(w0, w1)
  {
    forall a
      ensures TidyAt(w1, a) && KeepsAt(w0, w1, a)
    {
      assert ShapeAt(w0, w1, a) && TidyAt(w0, a);
    }
  }

  lemma ShapeSteps(w0: World, w1: World)
    requires Reverts(w0, w1) && Unmarks(w0, w1) && Tidy(w0) && SameShape(w0, w1)
    ensures Steps(w0, w1)
  {
    ShapeKeeps(w0, w1);
    StepsMake(w0, w1);
  }

  lemma AddBalanceShape(w: World, a: Address, v: u256)
    ensures SameShape(w, AddBalance(w, a, v))
  {
  }

  lemma IncNonceShape(w: World, a: Address)
    ensures SameShape(w, IncNonce(w, a))
  {
  }

  lemma SetNonceShape(w: World, a: Address, n: u256)
    ensures SameShape(w, SetNonce(w, a, n))
  {
  }

  lemma BumpSound(rules: Rules, w: World, sender: Address)
    requires Sound(w)
    ensures Sound(Bump(rules, w, sender)) && Total(Bump(rules, w, sender).accounts) == Total(w.accounts)
  {
    NonceTotal(w, sender, 0);
    IncNonceShape(w, sender);
    IncNonceReverts(w, sender);
    ShapeKeeps(w, IncNonce(w, sender));
  }

  /** A sender that is empty and not marked dirty is bumped only outside of all frames. */
  lemma BumpSteps(rules: Rules, w: World, sender: Address)
    requires Undoable(w) && Tidy(w) && !CleanEmpty(w, sender)
    ensures Steps(w, Bump(rules, w, sender))
  {
    if Bump(rules, w, sender) == w {
      StepsRefl(w);
    } else {
      IncNonceShape(w, sender);
      OpUnmarks(w, OpIncNonce(sender));
      IncNonceReverts(w, sender);
      ShapeSteps(w, IncNonce(w, sender));
    }
  }

  lemma BumpBalance(rules: Rules, w: World, sender: Address, a: Address)
    ensures Bump(rules, w, sender).BalanceOf(a) == w.BalanceOf(a)
  {
  }

  lemma AddBalanceSteps(w: World, a: Address, v: u256)
    requires Undoable(w) && Tidy(w)
    ensures Steps(w, AddBalance(w, a, v))
  {
    AddBalanceShape(w, a, v);
    AddBalanceReverts(w, a, v);
    OpUnmarks(w, OpAddBalance(a, v));
    ShapeSteps(w, AddBalance(w, a, v));
  }

  lemma PayInSteps(w: World, from: Address, to: Address, v: u256)
    requires Sound(w) && !NotEnoughCash(w, from, v)
    ensures Steps(w, PayIn(w, from, to, v)) && Total(PayIn(w, from, to, v).accounts) == Total(w.accounts)
  {
    TransferTotal(w, from, to, v);
    var w' := SubBalance(w, from, v);
    if v == 0 {
      AddBalanceSteps(w, to, v);
    } else {
      AddBalanceSteps(w, from, Neg(v));
      StepsSound(w, w');
      AddBalanceSteps(w', to, v);
      StepsTrans(w, w', AddBalance(w', to, v));
    }
  }

  lemma StoreKeeps(w: World, a: Address, k: u256, v: u256)
    requires Tidy(w) && CanStore(w, a)
    ensures Tidy(SetStorage(w, a, k, v)) && Keeps(w, SetStorage(w, a, k, v))
  {
    var w' := SetStorage(w, a, k, v);
    forall b
      ensures TidyAt(w', b) && KeepsAt(w, w', b)
    {
      assert TidyAt(w, b);
    }
  }

  lemma StoreSteps(w: World, a: Address, k: u256, v: u256)
    requires Undoable(w) && Tidy(w) && CanStore(w, a)
    ensures Steps(w, StoreAt(w, a, k, v)) && Total(StoreAt(w, a, k, v).accounts) == Total(w.accounts)
  {
    StoreKeeps(w, a, k, v);
    SetStorageReverts(w, a, k, v);
    OpUnmarks(w, OpSetStorage(a, k, v));
    SetStorageTotal(w, a, k, v);
    StepsMake(w, SetStorage(w, a, k, v));
  }

  lemma ClearKeeps(w: World, a: Address)
    requires Tidy(w) && a in w.accounts
    ensures Tidy(ClearStorage(w, a)) && Keeps(w, ClearStorage(w, a)) && ClearAt(w, a).accounts[a].base == map[]
  {
    var w' := ClearStorage(w, a);
    forall b
      ensures TidyAt(w', b) && KeepsAt(w, w', b)
    {
      assert TidyAt(w, b);
    }
  }

  lemma ClearSteps(w: World, a: Address)
    requires Undoable(w) && Tidy(w) && a in w.accounts && a in w.dirty && w.accounts[a].code == []
    ensures MayClear(w, a)
    ensures Steps(w, ClearAt(w, a)) && Total(ClearAt(w, a).accounts) == Total(w.accounts)
    ensures ClearAt(w, a).accounts[a].base == map[]
  {
    assert TidyAt(w, a);
    ClearKeeps(w, a);
    ClearStorageReverts(w, a);
    OpUnmarks(w, OpClearStorage(a));
    ClearStorageTotal(w, a);
    StepsMake(w, ClearStorage(w, a));
  }

  lemma DeployKeeps(w: World, a: Address, code: Bytes)
    requires Tidy(w) && a in w.accounts && a in w.dirty && w.accounts[a].base == map[]
    ensures Tidy(SetCode(w, a, code)) && Keeps(w, SetCode(w, a, code))
  {
    var w' := SetCode(w, a, code);
    forall b
      ensures TidyAt(w', b) && KeepsAt(w, w', b)
    {
      assert TidyAt(w, b);
    }
  }

  lemma DeploySteps(w: World, a: Address, code: Bytes)
    requires Undoable(w) && Tidy(w) && a in w.accounts && a in w.dirty && w.accounts[a].base == map[]
    ensures Steps(w, DeployAt(w, a, code)) && Total(DeployAt(w, a, code).accounts) == Total(w.accounts)
  {
    DeployKeeps(w, a, code);
    SetCodeReverts(w, a, code);
    OpUnmarks(w, OpSetCode(a, code));
    SetCodeTotal(w, a, code);
    StepsMake(w, SetCode(w, a, code));
  }

  lemma BequeathSteps(w: World, me: Address, heir: Address)
    requires Undoable(w) && Tidy(w)
    ensures Steps(w, Bequeath(w, me, heir))
  {
    var w' := AddBalance(w, heir, w.BalanceOf(me));
    AddBalanceSteps(w, heir, w.BalanceOf(me));
    StepsSound(w, w');
    AddBalanceSteps(w', me, Sub(0, w'.BalanceOf(me)));
    StepsTrans(w, w', Bequeath(w, me, heir));
  }

  /** Back at the savepoint, with the same accounts to remove as empty. */
  lemma UnwindSteps(w0: World, w1: World)
    requires Tidy(w0) && Reverts(w0, w1) && Unmarks(w0, w1)
    ensures Unwind(w1, |w0.log|).accounts == w0.accounts && Unwind(w1, |w0.log|).DirtyEmpty() == w0.DirtyEmpty()
    ensures Steps(w0, Unwind(w1, |w0.log|))
  {
    UnwindIsRollback(w1, |w0.log|);
    UnmarksIsSameDirt(w0, w1);
    var r := Rollback(w1, |w0.log|);
    assert Rollback(r, |w0.log|) == r;
    UnmarksIsSameDirt(w0, r);
    forall a
      ensures TidyAt(r, a) && KeepsAt(w0, r, a)
    {
      assert TidyAt(w0, a);
    }
    StepsMake(w0, r);
  }

  // ---------------------------------------------------------------- frames

  ghost predicate Fit(vm: Vm, me: Address) { vm.ok && Sound(vm.world) && CanStore(vm.world, me) }

  /** From `vm` to `vm'`: contracts met, gas not grown, ether conserved but for what was burned. */
  ghost predicate Progress(vm: Vm, vm': Vm) {
    && vm'.ok
    && Steps(vm.world, vm'.world)
    && vm'.gas <= vm.gas
    && vm.burned <= vm'.burned
    && Total(vm'.world.accounts) + vm'.burned == Total(vm.world.accounts) + vm.burned
  }

  lemma ProgressTrans(vm0: Vm, vm1: Vm, vm2: Vm)
    requires Progress(vm0, vm1) && Progress(vm1, vm2)
    ensures Progress(vm0, vm2)
  {
    StepsTrans(vm0.world, vm1.world, vm2.world);
  }

  lemma ProgressFit(vm: Vm, vm': Vm, me: Address)
    requires Fit(vm, me) && Progress(vm, vm')
    ensures Fit(vm', me)
  {
    StepsSound(vm.world, vm'.world);
    StepsCanStore(vm.world, vm'.world, me);
  }

  /** The accounts that a failed call still touches: an unpaid precompiled contract, from EIP-158 on. */
  function Touched(rules: Rules, codeAddress: Address, gas: nat, pre: Precompile): set<Address> {
    if codeAddress in rules.precompiled && gas < pre.cost && rules.eip158 then {codeAddress} else {}
  }

  /** Touching makes a new account of one that is missing. */
  predicate TouchesNew(rules: Rules, w: World, codeAddress: Address, gas: nat, pre: Precompile) {
    codeAddress in rules.precompiled && gas < pre.cost && rules.eip158 && codeAddress !in w.accounts
  }

  /** The accounts that are empty when they are touched, and so are to be removed. */
  function EmptyWhenTouched(w: World, touched: set<Address>): set<Address> {
    set a | a in touched && if a in w.accounts then w.accounts[a].IsEmpty() else w.startNonce == 0
  }

  /**
   What a frame that fails leaves of the world `w` of its savepoint: the accounts as they were exactly unless it touched
   a missing one, and the same accounts to remove as empty but for those it `touched`.
   */
  ghost predicate OnlyTouched(w: World, w': World, touched: set<Address>) {
    && (w'.accounts == w.accounts <==> touched <= w.accounts.Keys)
    && w'.DirtyEmpty() == w.DirtyEmpty() + EmptyWhenTouched(w, touched)
  }

  /** What a frame whose savepoint is at the world `w` leaves of it and of its `gas`. */
  ghost predicate FrameSound(w: World, gas: nat, frame: Frame, touched: set<Address>) {
    && frame.ok
    && Steps(w, frame.world)
    && frame.gas <= gas
    && Total(frame.world.accounts) + frame.burned == Total(w.accounts)
    && (frame.excepted != NoException ==> OnlyTouched(w, frame.world, touched))
    && (frame.excepted != NoException ==> frame.sub == NO_SUBSTATE && frame.burned == 0)
    && (frame.excepted != NoException && frame.excepted != RevertInstruction ==> frame.gas == 0)
  }

  lemma NothingTouched(w: World, w': World)
    requires w'.accounts == w.accounts && w'.DirtyEmpty() == w.DirtyEmpty()
    ensures OnlyTouched(w, w', {})
  {
    assert EmptyWhenTouched(w, {}) == {};
  }

  lemma ConcludeSound(w: World, gas: nat, start: Vm, vm: Vm, ending: Ending)
    requires Tidy(w) && Steps(w, start.world) && Progress(start, vm)
    requires start.gas <= gas && start.burned == 0
    requires Total(start.world.accounts) == Total(w.accounts)
    ensures FrameSound(w, gas, Conclude(vm, ending, |w.log|), {})
  {
    StepsTrans(w, start.world, vm.world);
    StepsParts(w, vm.world);
    UnwindSteps(w, vm.world);
    NothingTouched(w, Unwind(vm.world, |w.log|));
  }

  /** Touching an account leaves the accounts as they were exactly if it was there. */
  lemma TouchSteps(w: World, a: Address)
    requires Undoable(w) && Tidy(w) && Total(w.accounts) < TWO_256
    ensures Steps(w, AddBalance(w, a, 0)) && Total(AddBalance(w, a, 0).accounts) == Total(w.accounts)
  {
    AddBalanceSteps(w, a, 0);
    AddBalanceTotal(w, a, 0);
  }

  lemma TouchedOnly(w: World, a: Address)
    ensures OnlyTouched(w, AddBalance(w, a, 0), {a})
  {
    var w' := AddBalance(w, a, 0);
    assert a in w'.accounts;
    if a in w.accounts {
      assert w'.accounts == w.accounts;
    }
    forall b
      ensures b in w'.DirtyEmpty() <==> b in w.DirtyEmpty() || b in EmptyWhenTouched(w, {a})
    {
    }
  }

  /** A precompiled contract that is paid for and succeeds, or not. */
  lemma PaidPrecompileSound(rules: Rules, w: World, sender: Address, codeAddress: Address, receiver: Address,
                            value: u256, gas: nat, pre: Precompile)
    requires Sound(w) && !NotEnoughCash(w, sender, value) && pre.cost <= gas
    ensures FrameSound(w, gas, RunPrecompiled(rules, w, sender, codeAddress, receiver, value, gas, pre), {})
  {
    if pre.succeeds {
      PayInSteps(w, sender, receiver, value);
    } else {
      StepsRefl(w);
      NothingTouched(w, w);
    }
  }

  lemma PrecompiledSound(rules: Rules, w: World, sender: Address, codeAddress: Address, receiver: Address, value: u256,
                         gas: nat, pre: Precompile)
    requires Sound(w) && !NotEnoughCash(w, sender, value) && codeAddress in rules.precompiled
    ensures FrameSound(w, gas, RunPrecompiled(rules, w, sender, codeAddress, receiver, value, gas, pre),
                       Touched(rules, codeAddress, gas, pre))
  {
    if pre.cost <= gas {
      PaidPrecompileSound(rules, w, sender, codeAddress, receiver, value, gas, pre);
    } else if rules.eip158 {
      TouchSteps(w, codeAddress);
      TouchedOnly(w, codeAddress);
    } else {
      StepsRefl(w);
      NothingTouched(w, w);
    }
  }

  lemma CallSound(rules: Rules, w: World, sender: Address, codeAddress: Address, receiver: Address, value: u256,
                  gas: nat, depth: nat, pre: Precompile, body: Script)
    requires Sound(w) && !NotEnoughCash(w, sender, value)
    requires w.CodeOf(codeAddress) != [] ==> CanStore(w, receiver)
    ensures FrameSound(w, gas, RunCall(rules, w, sender, codeAddress, receiver, value, gas, depth, pre, body),
                       Touched(rules, codeAddress, gas, pre))
    decreases body, 3
  {
    if codeAddress in rules.precompiled {
      PrecompiledSound(rules, w, sender, codeAddress, receiver, value, gas, pre);
    } else {
      PayInSteps(w, sender, receiver, value);
      if w.CodeOf(codeAddress) != [] {
        var start := Vm(PayIn(w, sender, receiver, value), gas, NO_SUBSTATE, 0, true);
        StepsSound(w, start.world);
        StepsCanStore(w, start.world, receiver);
        ExecSound(rules, receiver, sender, depth, body, start);
        var (vm, ending) := Exec(rules, receiver, sender, depth, body, start);
        ConcludeSound(w, gas, start, vm, ending);
      }
    }
  }

  lemma NewContractExists(rules: Rules, w: World, sender: Address, newAddress: Address, endowment: u256)
    requires w.CodeOf(newAddress) == []
    ensures var w2 := NewContract(rules, w, sender, newAddress, endowment);
            newAddress in w2.accounts && newAddress in w2.dirty && w2.accounts[newAddress].code == []
  {
  }

  lemma NewContractSteps(rules: Rules, w: World, sender: Address, newAddress: Address, endowment: u256)
    requires Sound(w) && !NotEnoughCash(w, sender, endowment)
    ensures var w2 := NewContract(rules, w, sender, newAddress, endowment);
            Steps(w, w2) && Total(w2.accounts) == Total(w.accounts)
  {
    var w1 := PayIn(w, sender, newAddress, endowment);
    var nonce := if rules.eip158 then Add(w.startNonce, 1) else w.startNonce;
    PayInSteps(w, sender, newAddress, endowment);
    StepsSound(w, w1);
    SetNonceReverts(w1, newAddress, nonce);
    OpUnmarks(w1, OpSetNonce(newAddress, nonce));
    NonceTotal(w1, newAddress, nonce);
    SetNonceShape(w1, newAddress, nonce);
    ShapeSteps(w1, SetNonce(w1, newAddress, nonce));
    StepsTrans(w, w1, SetNonce(w1, newAddress, nonce));
  }

  lemma DeployedSound(me: Address, start: Vm, vm: Vm, gas: nat, code: Bytes)
    requires Sound(start.world) && Progress(start, vm) && gas <= vm.gas
    requires me in start.world.accounts && me in start.world.dirty && start.world.accounts[me].base == map[]
    ensures Progress(start, Deployed(me, vm.(gas := gas), code))
  {
    StepsSound(start.world, vm.world);
    StepsCanStore(start.world, vm.world, me);
    DeploySteps(vm.world, me, code);
    StepsTrans(start.world, vm.world, DeployAt(vm.world, me, code));
  }

  lemma DepositSound(rules: Rules, me: Address, start: Vm, vm: Vm, ending: Ending)
    requires Sound(start.world) && Progress(start, vm)
    requires me in start.world.accounts && me in start.world.dirty && start.world.accounts[me].base == map[]
    ensures Progress(start, Deposit(rules, me, vm, ending).0)
  {
    if ending.Returned? && !DepositFails(rules, vm.gas, ending.output) {
      var (gas, code) := Deposited(rules, vm.gas, ending.output);
      DeployedSound(me, start, vm, gas, code);
    }
  }

  lemma CreateSound(rules: Rules, w: World, sender: Address, newAddress: Address, endowment: u256, gas: nat,
                    depth: nat, noInit: bool, body: Script)
    requires Sound(w) && !NotEnoughCash(w, sender, endowment)
    ensures FrameSound(w, gas, CreateAt(rules, w, sender, newAddress, endowment, gas, depth, noInit, body), {})
    decreases body, 3
  {
    if w.CodeOf(newAddress) != [] || w.NonceOf(newAddress) > 0 {
      StepsRefl(w);
      NothingTouched(w, w);
    } else {
      var w' := NewContract(rules, w, sender, newAddress, endowment);
      NewContractSteps(rules, w, sender, newAddress, endowment);
      if !noInit {
        NewContractExists(rules, w, sender, newAddress, endowment);
        StepsSound(w, w');
        ClearSteps(w', newAddress);
        StepsSound(w', ClearAt(w', newAddress));
        StepsTrans(w, w', ClearAt(w', newAddress));
        var start := Vm(ClearAt(w', newAddress), gas, NO_SUBSTATE, 0, true);
        ExecSound(rules, newAddress, sender, depth, body, start);
        var (vm, ending) := Exec(rules, newAddress, sender, depth, body, start);
        DepositSound(rules, newAddress, start, vm, ending);
        var (vm', ending') := Deposit(rules, newAddress, vm, ending);
        ConcludeSound(w, gas, start, vm', ending');
      }
    }
  }

  /** The calling frame at the callee's savepoint `w`, and after the callee. */
  lemma ResumeProgress(vm: Vm, w: World, given: nat, frame: Frame, touched: set<Address>)
    requires vm.ok && Steps(vm.world, w) && Total(w.accounts) == Total(vm.world.accounts)
    requires FrameSound(w, given, frame, touched)
    ensures Progress(vm.(gas := vm.gas + given), Resume(vm, frame))
  {
    StepsTrans(vm.world, w, frame.world);
  }

  lemma CallFrame(rules: Rules, w: World, sender: Address, codeAddress: Address, receiver: Address, value: u256,
                  gas: nat, depth: nat, pre: Precompile, body: Script)
    returns (frame: Frame)
    requires Sound(w) && !NotEnoughCash(w, sender, value)
    requires w.CodeOf(codeAddress) != [] ==> CanStore(w, receiver)
    ensures frame == RunCall(rules, w, sender, codeAddress, receiver, value, gas, depth, pre, body)
    ensures FrameSound(w, gas, frame, Touched(rules, codeAddress, gas, pre))
    decreases body, 4
  {
    frame := RunCall(rules, w, sender, codeAddress, receiver, value, gas, depth, pre, body);
    CallSound(rules, w, sender, codeAddress, receiver, value, gas, depth, pre, body);
  }

  /** A creation, and the world of its savepoint. */
  lemma CreateFrame(rules: Rules, w: World, sender: Address, newAddress: Address, endowment: u256, gas: nat,
                    depth: nat, noInit: bool, body: Script)
    returns (w0: World, frame: Frame)
    requires Sound(w) && !NotEnoughCash(w, sender, endowment)
    ensures frame == RunCreate(rules, w, sender, newAddress, endowment, gas, depth, noInit, body)
    ensures w0 == Bump(rules, w, sender)
    ensures !CleanEmpty(w, sender) ==> Steps(w, w0)
    ensures Total(w0.accounts) == Total(w.accounts) && FrameSound(w0, gas, frame, {})
    decreases body, 4
  {
    w0 := Bump(rules, w, sender);
    if !CleanEmpty(w, sender) {
      BumpSteps(rules, w, sender);
    }
    BumpSound(rules, w, sender);
    BumpBalance(rules, w, sender, sender);
    frame := CreateAt(rules, w0, sender, newAddress, endowment, gas, depth, noInit, body);
    CreateSound(rules, w0, sender, newAddress, endowment, gas, depth, noInit, body);
  }

  lemma AfterCallUnfold(rules: Rules, me: Address, caller: Address, depth: nat, script: Script, vm: Vm, frame: Frame)
    requires script.Call? && CallValue(script) <= vm.world.BalanceOf(me) && depth < DEPTH_LIMIT
    requires frame == RunCall(rules, vm.world, CallSender(script, me, caller), script.target,
                              CallReceiver(script, me), CallValue(script), CallGas(script), depth + 1,
                              script.pre, script.body)
    ensures AfterCall(rules, me, caller, depth, script, vm) == Resume(vm, frame)
  {
  }

  lemma AfterCreateUnfold(rules: Rules, me: Address, depth: nat, script: Script, vm: Vm, frame: Frame)
    requires script.Create? && script.endowment <= vm.world.BalanceOf(me) && depth < DEPTH_LIMIT
    requires frame == RunCreate(rules, vm.world, me, script.newAddress, script.endowment, script.give, depth + 1,
                                script.noInit, script.body)
    ensures AfterCreate(rules, me, depth, script, vm) == Resume(vm, frame)
  {
  }

  lemma AfterCallSound(rules: Rules, me: Address, caller: Address, depth: nat, script: Script, vm: Vm)
    requires script.Call? && Fit(vm, me)
    requires CallValue(script) <= vm.world.BalanceOf(me) && depth < DEPTH_LIMIT
    ensures Progress(vm.(gas := vm.gas + CallGas(script)),
                     AfterCall(rules, me, caller, depth, script, vm))
    decreases script, 0, 0
  {
    var frame := CallFrame(rules, vm.world, CallSender(script, me, caller), script.target,
                               CallReceiver(script, me), CallValue(script), CallGas(script), depth + 1, script.pre,
                           script.body);
    assert Progress(vm.(gas := vm.gas + CallGas(script)), Resume(vm, frame)) by {
      StepsRefl(vm.world);
      ResumeProgress(vm, vm.world, CallGas(script), frame,
                     Touched(rules, script.target, CallGas(script), script.pre));
    }
    AfterCallUnfold(rules, me, caller, depth, script, vm, frame);
  }

  lemma AfterCreateSound(rules: Rules, me: Address, depth: nat, script: Script, vm: Vm)
    requires script.Create? && Fit(vm, me)
    requires script.endowment <= vm.world.BalanceOf(me) && depth < DEPTH_LIMIT
    ensures Progress(vm.(gas := vm.gas + script.give), AfterCreate(rules, me, depth, script, vm))
    decreases script, 0, 0
  {
    var w0, frame := CreateFrame(rules, vm.world, me, script.newAddress, script.endowment, script.give, depth + 1,
                                 script.noInit, script.body);
    assert Progress(vm.(gas := vm.gas + script.give), Resume(vm, frame)) by {
      ResumeProgress(vm, w0, script.give, frame, {});
    }
    AfterCreateUnfold(rules, me, depth, script, vm, frame);
  }

  lemma StoreSound(me: Address, script: Script, vm: Vm)
    requires script.Store? && Fit(vm, me)
    ensures Progress(vm, vm.(world := StoreAt(vm.world, me, script.key, script.value)))
  {
    StoreSteps(vm.world, me, script.key, script.value);
  }

  lemma SuicideSound(me: Address, heir: Address, vm: Vm)
    requires Fit(vm, me)
    ensures Progress(vm, AfterSuicide(vm, me, heir))
  {
    BequeathSteps(vm.world, me, heir);
    BequeathTotal(vm.world, me, heir);
  }

  lemma EffectStore(rules: Rules, me: Address, caller: Address, depth: nat, script: Script, vm: Vm)
    requires script.Store? && Fit(vm, me)
    ensures Progress(vm, Effect(rules, me, caller, depth, script, vm))
  {
    StoreSound(me, script, vm);
    assert Effect(rules, me, caller, depth, script, vm)
           == vm.(world := StoreAt(vm.world, me, script.key, script.value));
  }

  lemma EffectSuicide(rules: Rules, me: Address, caller: Address, depth: nat, script: Script, vm: Vm)
    requires script.Suicide? && Fit(vm, me)
    ensures Progress(vm, Effect(rules, me, caller, depth, script, vm))
  {
    SuicideSound(me, script.heir, vm);
  }

  /** Spending gas, logging and refund credits do not touch the world. */
  lemma EffectQuiet(rules: Rules, me: Address, caller: Address, depth: nat, script: Script, vm: Vm)
    requires (script.Spend? || script.Emit? || script.Refund?) && Fit(vm, me)
    ensures Progress(vm, Effect(rules, me, caller, depth, script, vm))
  {
    StepsRefl(vm.world);
  }

  /** A call that is made. */
  lemma CallMade(rules: Rules, me: Address, caller: Address, depth: nat, script: Script, vm: Vm)
    requires script.Call? && Fit(vm, me) && CallValue(script) <= vm.world.BalanceOf(me) && depth < DEPTH_LIMIT
    ensures Progress(vm.(gas := vm.gas + Price(script)), AfterCall(rules, me, caller, depth, script, vm))
    decreases script, 0, 1
  {
    AfterCallSound(rules, me, caller, depth, script, vm);
    MoreGas(vm, vm.gas + CallGas(script), vm.gas + Price(script), AfterCall(rules, me, caller, depth, script, vm));
  }

  /** A call that is not made gives its gas back. */
  lemma CallNotMade(rules: Rules, me: Address, caller: Address, depth: nat, script: Script, vm: Vm)
    requires script.Call? && Fit(vm, me) && (vm.world.BalanceOf(me) < CallValue(script) || DEPTH_LIMIT <= depth)
    ensures Progress(vm.(gas := vm.gas + Price(script)), AfterCall(rules, me, caller, depth, script, vm))
  {
    StepsRefl(vm.world);
  }

  lemma EffectCall(rules: Rules, me: Address, caller: Address, depth: nat, script: Script, vm: Vm) returns (vm': Vm)
    requires script.Call? && Fit(vm, me)
    ensures vm' == Effect(rules, me, caller, depth, script, vm)
    ensures Progress(vm.(gas := vm.gas + Price(script)), vm')
    decreases script, 0, 2
  {
    vm' := AfterCall(rules, me, caller, depth, script, vm);
    if CallValue(script) <= vm.world.BalanceOf(me) && depth < DEPTH_LIMIT {
      CallMade(rules, me, caller, depth, script, vm);
    } else {
      CallNotMade(rules, me, caller, depth, script, vm);
    }
  }

  lemma CreateMade(rules: Rules, me: Address, depth: nat, script: Script, vm: Vm)
    requires script.Create? && Fit(vm, me) && script.endowment <= vm.world.BalanceOf(me) && depth < DEPTH_LIMIT
    ensures Progress(vm.(gas := vm.gas + Price(script)), AfterCreate(rules, me, depth, script, vm))
    decreases script, 0, 1
  {
    AfterCreateSound(rules, me, depth, script, vm);
    MoreGas(vm, vm.gas + script.give, vm.gas + Price(script), AfterCreate(rules, me, depth, script, vm));
  }

  lemma CreateNotMade(rules: Rules, me: Address, depth: nat, script: Script, vm: Vm)
    requires script.Create? && Fit(vm, me) && (vm.world.BalanceOf(me) < script.endowment || DEPTH_LIMIT <= depth)
    ensures Progress(vm.(gas := vm.gas + Price(script)), AfterCreate(rules, me, depth, script, vm))
  {
    StepsRefl(vm.world);
  }

  lemma EffectCreate(rules: Rules, me: Address, caller: Address, depth: nat, script: Script, vm: Vm) returns (vm': Vm)
    requires script.Create? && Fit(vm, me)
    ensures vm' == Effect(rules, me, caller, depth, script, vm)
    ensures Progress(vm.(gas := vm.gas + Price(script)), vm')
    decreases script, 0, 2
  {
    vm' := AfterCreate(rules, me, depth, script, vm);
    if script.endowment <= vm.world.BalanceOf(me) && depth < DEPTH_LIMIT {
      CreateMade(rules, me, depth, script, vm);
    } else {
      CreateNotMade(rules, me, depth, script, vm);
    }
  }

  lemma MoreGas(vm: Vm, gas: nat, more: nat, vm': Vm)
    requires Progress(vm.(gas := gas), vm') && gas <= more
    ensures Progress(vm.(gas := more), vm')
  {
  }

  lemma PaidProgress(vm: Vm, paid: Vm, vm': Vm)
    requires Progress(paid, vm') && paid == vm.(gas := paid.gas) && paid.gas <= vm.gas
    ensures Progress(vm, vm')
  {
    MoreGas(vm, paid.gas, vm.gas, vm');
  }

  /** An effect other than a call or creation. */
  lemma EffectPlain(rules: Rules, me: Address, caller: Address, depth: nat, script: Script, vm: Vm) returns (vm': Vm)
    requires !Stops(script) && !script.Call? && !script.Create? && Fit(vm, me)
    ensures vm' == Effect(rules, me, caller, depth, script, vm) && Progress(vm, vm')
  {
    vm' := Effect(rules, me, caller, depth, script, vm);
    if script.Store? {
      EffectStore(rules, me, caller, depth, script, vm);
    } else if script.Suicide? {
      EffectSuicide(rules, me, caller, depth, script, vm);
    } else {
      EffectQuiet(rules, me, caller, depth, script, vm);
    }
  }

  lemma EffectSound(rules: Rules, me: Address, caller: Address, depth: nat, script: Script, vm: Vm) returns (vm': Vm)
    requires !Stops(script) && Fit(vm, me) && Price(script) <= vm.gas
    ensures vm' == Effect(rules, me, caller, depth, script, vm.(gas := vm.gas - Price(script)))
    ensures Progress(vm, vm')
    decreases script, 0, 3
  {
    var paid := vm.(gas := vm.gas - Price(script));
    if script.Call? {
      vm' := EffectCall(rules, me, caller, depth, script, paid);
      assert paid.(gas := paid.gas + Price(script)) == vm;
    } else if script.Create? {
      vm' := EffectCreate(rules, me, caller, depth, script, paid);
      assert paid.(gas := paid.gas + Price(script)) == vm;
    } else {
      vm' := EffectPlain(rules, me, caller, depth, script, paid);
      PaidProgress(vm, paid, vm');
    }
  }

  lemma ExecUnfold(rules: Rules, me: Address, caller: Address, depth: nat, script: Script, vm: Vm)
    ensures Stops(script) || vm.gas < Price(script) ==> Exec(rules, me, caller, depth, script, vm).0 == vm
    ensures !Stops(script) && Price(script) <= vm.gas ==>
              Exec(rules, me, caller, depth, script, vm)
              == Exec(rules, me, caller, depth, script.rest,
                      Effect(rules, me, caller, depth, script, vm.(gas := vm.gas - Price(script))))
  {
  }

  lemma EffectFit(rules: Rules, me: Address, caller: Address, depth: nat, script: Script, vm: Vm) returns (vm': Vm)
    requires !Stops(script) && Fit(vm, me) && Price(script) <= vm.gas
    ensures vm' == Effect(rules, me, caller, depth, script, vm.(gas := vm.gas - Price(script)))
    ensures Progress(vm, vm') && Fit(vm', me)
    decreases script, 1
  {
    vm' := EffectSound(rules, me, caller, depth, script, vm);
    ProgressFit(vm, vm', me);
  }

  /** Main result about scripts. */
  lemma {:induction false} ExecSound(rules: Rules, me: Address, caller: Address, depth: nat, script: Script, vm: Vm)
    requires Fit(vm, me)
    ensures Progress(vm, Exec(rules, me, caller, depth, script, vm).0)
    decreases script, 2
  {
    ExecUnfold(rules, me, caller, depth, script, vm);
    if Stops(script) || vm.gas < Price(script) {
      StepsRefl(vm.world);
    } else {
      var vm' := EffectFit(rules, me, caller, depth, script, vm);
      ExecSound(rules, me, caller, depth, script.rest, vm');
      ProgressTrans(vm, vm', Exec(rules, me, caller, depth, script.rest, vm').0);
    }
  }

  // ---------------------------------------------------------------- failed frames

  lemma AccrueNothing(sub: SubState)
    ensures sub.Accrue(NO_SUBSTATE) == sub
  {
  }

  lemma ResumeFailed(vm: Vm, w: World, given: nat, frame: Frame, touched: set<Address>)
    requires vm.ok && FrameSound(w, given, frame, touched) && frame.excepted != NoException
    ensures Resume(vm, frame) == vm.(world := frame.world, gas := vm.gas + frame.gas)
    ensures OnlyTouched(w, frame.world, touched)
  {
    AccrueNothing(vm.sub);
  }

  /**
   A call that fails adds nothing to its caller's logs, suicides or refunds.  It leaves the caller the accounts it had,
   exactly unless it is an unpaid call that touches the missing account of a precompiled contract; and the same accounts
   to remove as empty but for a precompiled contract that it touches while empty.
   */
  lemma FailedCallLeavesNoTrace(rules: Rules, me: Address, caller: Address, depth: nat, script: Script, vm: Vm,
                                frame: Frame)
    requires script.Call? && Fit(vm, me)
    requires CallValue(script) <= vm.world.BalanceOf(me) && depth < DEPTH_LIMIT
    requires frame == RunCall(rules, vm.world, CallSender(script, me, caller), script.target, CallReceiver(script, me),
                              CallValue(script), CallGas(script), depth + 1, script.pre, script.body)
    requires frame.excepted != NoException
    ensures AfterCall(rules, me, caller, depth, script, vm) == vm.(world := frame.world, gas := vm.gas + frame.gas)
    ensures frame.world.accounts == vm.world.accounts
            <==> !TouchesNew(rules, vm.world, script.target, CallGas(script), script.pre)
    ensures frame.world.DirtyEmpty()
            == vm.world.DirtyEmpty()
               + EmptyWhenTouched(vm.world, Touched(rules, script.target, CallGas(script), script.pre))
  {
    var frame' := CallFrame(rules, vm.world, CallSender(script, me, caller), script.target, CallReceiver(script, me),
                            CallValue(script), CallGas(script), depth + 1, script.pre, script.body);
    ResumeFailed(vm, vm.world, CallGas(script), frame',
                 Touched(rules, script.target, CallGas(script), script.pre));
    AfterCallUnfold(rules, me, caller, depth, script, vm, frame');
  }

  const LATE_RULES := Rules(true, false, true, 200, 24576, 24000, {3})

  const NOBODY := World(map[], {}, [], map[], 0)

  /** A failing call that does leave a trace: contract 3 costs 600, gets 599, and has no account yet. */
  lemma UnpaidPrecompileLeavesAccount(sender: Address, depth: nat, body: Script)
    ensures var frame := RunCall(LATE_RULES, NOBODY, sender, 3, 3, 0, 599, depth, Precompile(600, true), body);
            && frame.excepted == OutOfGasBase
            && NOBODY.accounts == map[] && frame.world.accounts == map[3 := NewAccount(0, 0)]
            && frame.world.DirtyEmpty() == {3}
  {
    assert AddBalance(NOBODY, 3, 0).accounts == map[3 := NewAccount(0, 0)];
    TouchedOnly(NOBODY, 3);
    assert NOBODY.DirtyEmpty() == {} && EmptyWhenTouched(NOBODY, {3}) == {3};
  }

  /** A creation that fails leaves the creator's bumped nonce and nothing else. */
  lemma FailedCreateLeavesNonce(rules: Rules, me: Address, depth: nat, script: Script, vm: Vm, frame: Frame)
    requires script.Create? && Fit(vm, me)
    requires script.endowment <= vm.world.BalanceOf(me) && depth < DEPTH_LIMIT
    requires frame == RunCreate(rules, vm.world, me, script.newAddress, script.endowment, script.give, depth + 1,
                                script.noInit, script.body)
    requires frame.excepted != NoException
    ensures AfterCreate(rules, me, depth, script, vm)
            == vm.(world := frame.world, gas := vm.gas + frame.gas)
    ensures frame.world.accounts == Bump(rules, vm.world, me).accounts
    ensures frame.world.DirtyEmpty() == Bump(rules, vm.world, me).DirtyEmpty()
  {
    var w0, frame' := CreateFrame(rules, vm.world, me, script.newAddress, script.endowment, script.give, depth + 1,
                                  script.noInit, script.body);
    ResumeFailed(vm, w0, script.give, frame', {});
    AfterCreateUnfold(rules, me, depth, script, vm, frame');
  }

  /** At an address that does not exist yet, a creation finds it used exactly when the start nonce is not zero. */
  lemma StartNonceForbidsCreation(rules: Rules, w: World, sender: Address, newAddress: Address, endowment: u256,
                                  gas: nat, depth: nat, noInit: bool, body: Script)
    requires newAddress !in w.accounts && newAddress != sender
    ensures RunCreate(rules, w, sender, newAddress, endowment, gas, depth, noInit, body).excepted == AddressAlreadyUsed
            <==> w.startNonce != 0
  {
    UsedAddress(rules, Bump(rules, w, sender), sender, newAddress, endowment, gas, depth, noInit, body);
  }

  /** An address is used exactly when it has code or a nonce. */
  lemma UsedAddress(rules: Rules, w: World, sender: Address, newAddress: Address, endowment: u256, gas: nat,
                    depth: nat, noInit: bool, body: Script)
    ensures CreateAt(rules, w, sender, newAddress, endowment, gas, depth, noInit, body).excepted == AddressAlreadyUsed
            <==> w.CodeOf(newAddress) != [] || w.NonceOf(newAddress) != 0
  {
  }
}
