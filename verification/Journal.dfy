/**
 The world state as its clients see it (accounts, nonces, balances, code, storage), together with the
 change log that `State::savepoint` and `State::rollback` are built on.  Nothing here knows about the
 account cache: module StateCache shows that the cached, evicting implementation behaves like this one.

 A storage root is a hash of the storage it names, so it is modelled by that storage; a code hash by the code.
 */
module Journal {
  import opened Words

  type Address = nat
  type Bytes = seq<nat>

  /** A storage trie: absent keys read as zero and zero is never stored. */
  type Storage = m: map<u256, u256> | forall k :: k in m ==> m[k] != 0 witness map[]

  function Slot(s: Storage, k: u256): u256 { if k in s then s[k] else 0 }

  function PutSlot(s: Storage, k: u256, v: u256): Storage { if v == 0 then s - {k} else s[k := v] }

  /** `base` is the trie root the account's storage was loaded with, `storage` what its reader sees. */
  datatype Account = Account(alive: bool, nonce: u256, balance: u256, code: Bytes, base: Storage, storage: Storage)
  {
    predicate IsEmpty() { nonce == 0 && balance == 0 && code == [] }
  }

  function NewAccount(nonce: u256, balance: u256): Account { Account(true, nonce, balance, [], map[], map[]) }

  datatype Change =
    | Balance(addr: Address, delta: u256)
    | StorageSlot(addr: Address, key: u256, prior: u256)
    | StorageRoot(addr: Address, root: Storage)
    | Nonce(addr: Address, priorNonce: u256)
    | Create(addr: Address)
    | Code(addr: Address, priorCode: Bytes)
    | Touch(addr: Address)

  datatype World = World(accounts: map<Address, Account>, dirty: set<Address>, log: seq<Change>,
                         trie: map<Address, Account>, startNonce: u256)
  {
    function BalanceOf(a: Address): u256 { if a in accounts then accounts[a].balance else 0 }
    function NonceOf(a: Address): u256 { if a in accounts then accounts[a].nonce else startNonce }
    function CodeOf(a: Address): Bytes { if a in accounts then accounts[a].code else [] }
    function StorageAt(a: Address, k: u256): u256 { if a in accounts then Slot(accounts[a].storage, k) else 0 }

    /** Replace one account, marking it dirty and appending to the log. */
    function Put(a: Address, acct: Account, changes: seq<Change>): World {
      this.(accounts := accounts[a := acct], dirty := dirty + {a}, log := log + changes)
    }

    /** The accounts that removeEmptyAccounts would kill. */
    function DirtyEmpty(): set<Address> { set a | a in dirty && a in accounts && accounts[a].IsEmpty() }
  }

  // ---------------------------------------------------------------- mutators

  function IncNonce(w: World, a: Address): World {
    if a in w.accounts then
      var acct := w.accounts[a];
      w.Put(a, acct.(nonce := Add(acct.nonce, 1)), [Nonce(a, acct.nonce)])
    else
      w.Put(a, NewAccount(Add(w.startNonce, 1), 0), [Create(a)])
  }

  function SetNonce(w: World, a: Address, n: u256): World {
    if a in w.accounts then
      var acct := w.accounts[a];
      w.Put(a, acct.(nonce := n), [Nonce(a, acct.nonce)])
    else
      w.Put(a, NewAccount(n, 0), [Create(a)])
  }

  /** The entry for the amount itself, left out when the amount is zero. */
  function AmountLogged(a: Address, v: u256): seq<Change> { if v == 0 then [] else [Balance(a, v)] }

  function AddBalance(w: World, a: Address, v: u256): World {
    if a in w.accounts then
      var acct := w.accounts[a];
      var touch := if a !in w.dirty && acct.IsEmpty() then [Touch(a)] else [];
      w.Put(a, acct.(balance := Add(acct.balance, v)), touch + AmountLogged(a, v))
    else
      w.Put(a, NewAccount(w.startNonce, v), [Create(a)] + AmountLogged(a, v))
  }

  /** Would `subBalance` throw NotEnoughCash? */
  predicate NotEnoughCash(w: World, a: Address, v: u256) { v != 0 && w.BalanceOf(a) < v }

  function SubBalance(w: World, a: Address, v: u256): World
    requires !NotEnoughCash(w, a, v)
  {
    if v == 0 then w else AddBalance(w, a, Neg(v))
  }

  function SetBalance(w: World, a: Address, v: u256): World { AddBalance(w, a, Sub(v, w.BalanceOf(a))) }

  function Transfer(w: World, from: Address, to: Address, v: u256): World
    requires !NotEnoughCash(w, from, v)
  {
    AddBalance(SubBalance(w, from, v), to, v)
  }

  function SetStorage(w: World, a: Address, k: u256, v: u256): World
    requires a in w.accounts
  {
    var acct := w.accounts[a];
    w.Put(a, acct.(storage := PutSlot(acct.storage, k, v)), [StorageSlot(a, k, Slot(acct.storage, k))])
  }

  function ClearStorage(w: World, a: Address): World
    requires a in w.accounts
  {
    var acct := w.accounts[a];
    if acct.base == map[] then w
    else w.Put(a, acct.(base := map[], storage := map[]), [StorageRoot(a, acct.base)])
  }

  function SetCode(w: World, a: Address, code: Bytes): World
    requires a in w.accounts
  {
    var acct := w.accounts[a];
    w.(accounts := w.accounts[a := acct.(code := code)], log := w.log + [Code(a, acct.code)])
  }

  /** Not logged: suicides are processed after the last possible rollback. */
  function Kill(w: World, a: Address): World {
    if a in w.accounts then w.Put(a, Account(false, 0, 0, [], map[], map[]), []) else w
  }

  // ---------------------------------------------------------------- undo

  predicate CanUndo(w: World) { w.log != [] && w.log[|w.log| - 1].addr in w.accounts }

  /** What `State::rollback` does with one change. */
  function UndoChange(w: World, c: Change): World
    requires c.addr in w.accounts
  {
    var acct := w.accounts[c.addr];
    match c
    case Balance(a, v) => w.Put(a, acct.(balance := Add(acct.balance, Neg(v))), [])
    case StorageSlot(a, k, v) => w.Put(a, acct.(storage := PutSlot(acct.storage, k, v)), [])
    case StorageRoot(a, r) => w.Put(a, acct.(base := r, storage := r), [])
    case Nonce(a, v) => w.Put(a, acct.(nonce := v), [])
    case Create(a) => w.(accounts := w.accounts - {a}, dirty := w.dirty - {a})
    case Code(a, code) => w.(accounts := w.accounts[a := acct.(code := code)])
    case Touch(a) => w.(dirty := w.dirty - {a})
  }

  /** One turn of the loop in `State::rollback`. */
  function Undo(w: World): (r: World)
    requires CanUndo(w)
    ensures r.log == w.log[..|w.log| - 1] && r.trie == w.trie && r.startNonce == w.startNonce
  {
    var n := |w.log| - 1;
    UndoChange(w.(log := w.log[..n]), w.log[n])
  }

  /** Whatever is not dirty is exactly what the trie holds, so it may be dropped from a cache. */
  ghost predicate CleanAgrees(w: World) {
    && w.dirty <= w.accounts.Keys
    && (forall a :: a in w.accounts && a !in w.dirty ==> a in w.trie && w.accounts[a] == w.trie[a])
    && (forall a :: a in w.trie && a !in w.dirty ==> a in w.accounts)
  }

  /** Every logged change concerns a dirty account, and undoing it gives a state with the same property. */
  ghost predicate Undoable(w: World)
    decreases |w.log|, 1
  {
    UndoableNow(w)
  }

  /** One unfolding of Undoable, named so that proofs can ask for it where they need it. */
  ghost predicate UndoableNow(w: World)
    decreases |w.log|, 0
  {
    && CleanAgrees(w)
    && (w.log != [] ==> CanUndo(w) && w.log[|w.log| - 1].addr in w.dirty && Undoable(Undo(w)))
  }

  ghost function Rollback(w: World, savepoint: nat): (r: World)
    requires Undoable(w) && savepoint <= |w.log|
    ensures Undoable(r) && r.log == w.log[..savepoint]
    ensures r.trie == w.trie && r.startNonce == w.startNonce
    decreases |w.log|
  {
    assert UndoableNow(w);
    if savepoint == |w.log| then w else Rollback(Undo(w), savepoint)
  }

  /** The rollback loop as it runs on any world; on undoable ones it is Rollback. */
  function Unwind(w: World, savepoint: nat): World
    decreases |w.log|
  {
    if |w.log| <= savepoint || !CanUndo(w) then w else Unwind(Undo(w), savepoint)
  }

  // ---------------------------------------------------------------- commit

  /** Dead accounts go, and so do dirty empty ones when asked (EIP-158). */
  predicate Survives(w: World, a: Address, removeEmpty: bool)
    requires a in w.accounts
  {
    w.accounts[a].alive && !(removeEmpty && a in w.dirty && w.accounts[a].IsEmpty())
  }

  /** What stays is written to the trie, with the storage seen as the new base; the log is forgotten. */
  function Commit(w: World, removeEmpty: bool): World {
    var kept := map a | a in w.accounts && Survives(w, a, removeEmpty) ::
                  w.accounts[a].(base := w.accounts[a].storage);
    World(kept, {}, [], kept, w.startNonce)
  }
}
