/** `State::execute`: a transaction run by an Executive on the cached State, and committed. */
module TransactionRun {
  import opened Words
  import opened Journal
  import opened Frames
  import opened FrameProofs
  import opened Transactions
  import opened TransactionProofs
  import opened StateCache
  import opened Executive

  /** The checks of `verifyTransaction` and `initialize`. */
  method Initialize(e: Executive, env: Env, tx: Tx) returns (c: Check)
    requires e.Valid()
    modifies e.s
    ensures e.Valid() && c == Verify(e.rules, env, e.world, tx)
  {
    if tx.zeroSignature && !e.rules.constantinople {
      return Refused(InvalidSignature);
    }
    if tx.zeroSignature && (tx.value != 0 || tx.gasPrice != 0 || tx.nonce != 0) {
      return Refused(InvalidZeroSignature);
    }
    if tx.gas < tx.baseGas {
      return Refused(OutOfGasIntrinsic);
    }
    if env.gasLimit < env.gasUsed + tx.gas {
      return Refused(BlockGasLimitReached);
    }
    if !tx.zeroSignature {
      var required := e.Nonce(tx.sender);
      if tx.nonce != required {
        return Refused(InvalidNonce);
      }
      var balance := e.Balance(tx.sender);
      TimesIsProduct(tx.gas, tx.gasPrice);
      if balance < tx.value + tx.gas * tx.gasPrice {
        return Refused(InsufficientCash);
      }
    }
    c := Accepted;
  }

  /** `Executive::execute`, once the gas is paid for: the outermost frame. */
  method Run(e: Executive, tx: Tx, b: Behaviour)
    requires e.Valid() && Sound(e.world) && !NotEnoughCash(e.world, tx.sender, tx.value)
    requires tx.baseGas <= tx.gas && e.depth == 0
    modifies e, e.s
    ensures e.Valid() && e.Result() == Outermost(e.rules, old(e.world), tx, b)
  {
    if tx.creation {
      e.Create(tx.sender, b.newAddress, tx.value, StartGas(tx), b.noInit, b.body);
      return;
    }
    BumpSound(e.rules, e.world, tx.sender);
    BumpBalance(e.rules, e.world, tx.sender, tx.sender);
    if tx.sender != MAX_ADDRESS || !e.rules.constantinople {
      e.BumpNonce(tx.sender);
    }
    e.Call(tx.sender, tx.to, tx.to, tx.value, StartGas(tx), b.pre, b.body);
  }

  lemma KillNext(w: World, done: set<Address>, a: Address)
    ensures Kill(KillAll(w, done), a) == KillAll(w, done + {a})
  {
    if a in w.accounts {
      assert (done + {a}) * w.accounts.Keys == done * w.accounts.Keys + {a};
    } else {
      assert (done + {a}) * w.accounts.Keys == done * w.accounts.Keys;
    }
  }

  lemma KillNone(w: World)
    ensures KillAll(w, {}) == w
  {
    assert {} * w.accounts.Keys == {};
  }

  /** Process the suicides. */
  method ProcessSuicides(s: State, suicides: set<Address>)
    requires s.Open()
    modifies s
    ensures s.Valid() && s.Abs() == KillAll(old(s.Abs()), suicides)
  {
    ghost var w := s.Abs();
    var todo := suicides;
    KillNone(w);
    assert suicides - todo == {};
    while todo != {}
      invariant s.Valid() && todo <= suicides && s.Abs() == KillAll(w, suicides - todo)
      decreases todo
    {
      var a :| a in todo;
      KillNext(w, suicides - todo, a);
      assert suicides - todo + {a} == suicides - (todo - {a});
      s.Kill(a);
      todo := todo - {a};
    }
    assert suicides - todo == suicides;
  }

  /** `Executive::finalize`: refund, pay the author, process the suicides. */
  method FinalizeTx(e: Executive, env: Env, tx: Tx) returns (left: u256)
    requires e.Valid() && e.gas <= tx.gas
    modifies e, e.s
    ensures e.s.Valid()
    ensures left == LeftAfter(e.rules, tx, old(e.Result()))
    ensures e.s.Abs() == Finalize(env, tx, old(e.Result()), left).world
  {
    left := e.gas + RefundFor(e.rules, tx, e.gas, e.sub);
    SettleGas(e, env, tx, left);
    e.Unseal();
    ProcessSuicides(e.s, e.sub.suicides);
  }

  /** Refund the sender and pay the author. */
  method SettleGas(e: Executive, env: Env, tx: Tx, left: u256)
    requires e.Valid() && left <= tx.gas
    modifies e`world, e.s
    ensures e.Valid() && e.world == Settle(env, old(e.world), tx, left)
  {
    ProductIs(left, tx.gasPrice);
    ProductIs(tx.gas - left, tx.gasPrice);
    e.Touch(tx.sender, left * tx.gasPrice % TWO_256);
    e.Touch(env.author, (tx.gas - left) * tx.gasPrice % TWO_256);
  }

  datatype Execution = Rejected(why: Refusal) | Executed(gasUsed: u256)

  /** Everything about one transaction: the cached State ends up exactly as the specification says. */
  method Execute(s: State, rules: Rules, env: Env, tx: Tx, b: Behaviour) returns (r: Execution)
    requires s.Open() && Sound(s.Abs())
    modifies s
    ensures s.Open()
    ensures Verify(rules, env, old(s.Abs()), tx).Refused? ==>
              s.Abs() == old(s.Abs()) && r == Rejected(Verify(rules, env, old(s.Abs()), tx).why)
    ensures Verify(rules, env, old(s.Abs()), tx).Accepted? ==>
              var o := RunTx(rules, env, old(s.Abs()), tx, b);
              s.Abs() == Journal.Commit(o.world, rules.eip158) && r == Executed(o.gasUsed)
  {
    ghost var w := s.Abs();
    var e := new Executive(s, rules, 0);
    var c := Initialize(e, env, tx);
    if c.Refused? {
      e.Unseal();
      return Rejected(c.why);
    }
    var used := Complete(e, env, tx, b);
    r := Executed(used);
  }

  /** An accepted transaction, committed. */
  method Complete(e: Executive, env: Env, tx: Tx, b: Behaviour) returns (used: u256)
    requires e.Valid() && e.depth == 0 && Verify(e.rules, env, e.world, tx).Accepted? && Sound(e.world)
    modifies e, e.s
    ensures e.s.Open() && used == RunTx(e.rules, env, old(e.world), tx, b).gasUsed
    ensures e.s.Abs() == Journal.Commit(RunTx(e.rules, env, old(e.world), tx, b).world, e.rules.eip158)
  {
    var left := Proceed(e, env, tx, b);
    e.s.Commit(e.rules.eip158);
    used := tx.gas - left;
  }

  lemma AcceptedReady(rules: Rules, env: Env, w: World, tx: Tx)
    requires Verify(rules, env, w, tx).Accepted? && Sound(w)
    ensures !NotEnoughCash(w, tx.sender, GasCost(tx)) && PayForGas(w, tx) == SubBalance(w, tx.sender, GasCost(tx))
    ensures Sound(PayForGas(w, tx)) && !NotEnoughCash(PayForGas(w, tx), tx.sender, tx.value)
  {
    AcceptedPays(rules, env, w, tx);
    PaidSound(w, tx.sender, GasCost(tx));
  }

  /** An accepted transaction: pay for the gas, run, finalize. */
  method Proceed(e: Executive, env: Env, tx: Tx, b: Behaviour) returns (left: u256)
    requires e.Valid() && e.depth == 0 && Verify(e.rules, env, e.world, tx).Accepted? && Sound(e.world)
    modifies e, e.s
    ensures e.s.Valid() && e.s.Abs() == RunTx(e.rules, env, old(e.world), tx, b).world
    ensures left <= tx.gas && tx.gas - left == RunTx(e.rules, env, old(e.world), tx, b).gasUsed
  {
    ghost var w := e.world;
    AcceptedReady(e.rules, env, w, tx);
    ProductIs(tx.gas, tx.gasPrice);
    e.Charge(tx.sender, if tx.zeroSignature then 0 else tx.gas * tx.gasPrice % TWO_256);
    left := Rest(e, env, tx, b, w);
  }

  /** From the payment for the gas to the end. */
  method Rest(e: Executive, env: Env, tx: Tx, b: Behaviour, ghost w: World) returns (left: u256)
    requires e.Valid() && e.depth == 0 && Verify(e.rules, env, w, tx).Accepted?
    requires e.world == PayForGas(w, tx) && Sound(e.world) && !NotEnoughCash(w, tx.sender, GasCost(tx))
    requires !NotEnoughCash(e.world, tx.sender, tx.value)
    modifies e, e.s
    ensures e.s.Valid() && e.s.Abs() == RunTx(e.rules, env, w, tx, b).world
    ensures left <= tx.gas && tx.gas - left == RunTx(e.rules, env, w, tx, b).gasUsed
  {
    ghost var w0, frame := OutermostSound(e.rules, e.world, tx, b);
    Run(e, tx, b);
    assert e.Result() == frame;
    left := FinalizeTx(e, env, tx);
    RunTxIs(e.rules, env, w, tx, b, frame);
  }
}
