/** What the operations on the world let its readers see, told by the readers alone. */
module WorldLaws {
  import opened Words
  import opened Journal

  // ---------------------------------------------------------------- what stays

  ghost predicate SameBalances(w: World, w': World, but: set<Address>) {
    forall b {:trigger w'.BalanceOf(b)} :: b !in but ==> w'.BalanceOf(b) == w.BalanceOf(b)
  }

  ghost predicate SameNonces(w: World, w': World, but: set<Address>) {
    forall b {:trigger w'.NonceOf(b)} :: b !in but ==> w'.NonceOf(b) == w.NonceOf(b)
  }

  ghost predicate SameCodes(w: World, w': World, but: set<Address>) {
    forall b {:trigger w'.CodeOf(b)} :: b !in but ==> w'.CodeOf(b) == w.CodeOf(b)
  }

  ghost predicate SameSlots(w: World, w': World, but: set<Address>) {
    forall b, l {:trigger w'.StorageAt(b, l)} :: b !in but ==> w'.StorageAt(b, l) == w.StorageAt(b, l)
  }

  // ---------------------------------------------------------------- what changes

  /** The balance of `a` is now `v`; nothing else is read differently, and `a` exists. */
  ghost predicate BalanceBecomes(w: World, w': World, a: Address, v: u256) {
    && w'.BalanceOf(a) == v && a in w'.accounts && w'.accounts.Keys == w.accounts.Keys + {a}
    && SameBalances(w, w', {a}) && SameNonces(w, w', {}) && SameCodes(w, w', {}) && SameSlots(w, w', {})
  }

  ghost predicate NonceBecomes(w: World, w': World, a: Address, n: u256) {
    && w'.NonceOf(a) == n && a in w'.accounts && w'.accounts.Keys == w.accounts.Keys + {a}
    && SameNonces(w, w', {a}) && SameBalances(w, w', {}) && SameCodes(w, w', {}) && SameSlots(w, w', {})
  }

  ghost predicate CodeBecomes(w: World, w': World, a: Address, code: Bytes) {
    && w'.CodeOf(a) == code && w'.accounts.Keys == w.accounts.Keys
    && SameCodes(w, w', {a}) && SameBalances(w, w', {}) && SameNonces(w, w', {}) && SameSlots(w, w', {})
  }

  /** The slots of `a` are now those of `s`; nothing else is read differently. */
  ghost predicate SlotsBecome(w: World, w': World, a: Address, s: u256 -> u256) {
    && (forall l {:trigger w'.StorageAt(a, l)} :: w'.StorageAt(a, l) == s(l)) && w'.accounts.Keys == w.accounts.Keys
    && SameSlots(w, w', {a}) && SameBalances(w, w', {}) && SameNonces(w, w', {}) && SameCodes(w, w', {})
  }

  ghost predicate SlotBecomes(w: World, w': World, a: Address, k: u256, v: u256) {
    SlotsBecome(w, w', a, l => if l == k then v else w.StorageAt(a, l))
  }

  /** `v` went from `from` to `to`; no other balance changed. */
  ghost predicate MovesBalances(w: World, w': World, from: Address, to: Address, v: u256) {
    && (from != to ==> w'.BalanceOf(from) == w.BalanceOf(from) - v)
    && (from != to ==> w'.BalanceOf(to) == (w.BalanceOf(to) + v) % TWO_256)
    && (from == to ==> w'.BalanceOf(to) == w.BalanceOf(to))
    && SameBalances(w, w', {from, to})
  }

  /** Nothing but balances changed, and `to` exists. */
  ghost predicate Moves(w: World, w': World, from: Address, to: Address, v: u256) {
    && MovesBalances(w, w', from, to, v)
    && to in w'.accounts && w.accounts.Keys <= w'.accounts.Keys <= w.accounts.Keys + {from, to}
    && SameNonces(w, w', {}) && SameCodes(w, w', {}) && SameSlots(w, w', {})
  }

  // ---------------------------------------------------------------- each operation

  lemma IncNonceSeen(w: World, a: Address)
    ensures NonceBecomes(w, IncNonce(w, a), a, (w.NonceOf(a) + 1) % TWO_256)
  {
  }

  lemma SetNonceSeen(w: World, a: Address, n: u256)
    ensures NonceBecomes(w, SetNonce(w, a, n), a, n)
  {
  }

  lemma AddBalanceSeen(w: World, a: Address, v: u256)
    ensures BalanceBecomes(w, AddBalance(w, a, v), a, (w.BalanceOf(a) + v) % TWO_256)
  {
  }

  /** Nothing at all happens when nothing is taken. */
  lemma SubBalanceSeen(w: World, a: Address, v: u256)
    requires !NotEnoughCash(w, a, v)
    ensures 0 <= w.BalanceOf(a) - v
    ensures if v == 0 then SubBalance(w, a, v) == w
            else BalanceBecomes(w, SubBalance(w, a, v), a, w.BalanceOf(a) - v)
  {
    if v != 0 {
      AddBalanceSeen(w, a, Neg(v));
    }
  }

  lemma SetBalanceSeen(w: World, a: Address, v: u256)
    ensures BalanceBecomes(w, SetBalance(w, a, v), a, v)
  {
    AddBalanceSeen(w, a, Sub(v, w.BalanceOf(a)));
  }

  lemma TransferSeen(w: World, from: Address, to: Address, v: u256)
    requires !NotEnoughCash(w, from, v)
    ensures Moves(w, Transfer(w, from, to, v), from, to, v)
  {
    SubBalanceSeen(w, from, v);
    AddBalanceSeen(SubBalance(w, from, v), to, v);
  }

  lemma SetStorageSeen(w: World, a: Address, k: u256, v: u256)
    requires a in w.accounts
    ensures SlotBecomes(w, SetStorage(w, a, k, v), a, k, v)
  {
  }

  /** Clearing empties the storage, but does nothing where there is no base storage. */
  lemma ClearStorageSeen(w: World, a: Address)
    requires a in w.accounts
    ensures SlotsBecome(w, ClearStorage(w, a), a, l => if w.accounts[a].base == map[] then w.StorageAt(a, l) else 0)
  {
  }

  lemma SetCodeSeen(w: World, a: Address, code: Bytes)
    requires a in w.accounts
    ensures CodeBecomes(w, SetCode(w, a, code), a, code)
  {
  }

  /** A killed account is dead and empty; the others are as they were. */
  ghost predicate Killed(w: World, w': World, dead: set<Address>) {
    && w'.accounts.Keys == w.accounts.Keys
    && (forall a :: a in w.accounts && a in dead ==>
          !w'.accounts[a].alive && w'.BalanceOf(a) == 0 && w'.NonceOf(a) == 0 && w'.CodeOf(a) == [])
    && (forall a, l :: a in w.accounts && a in dead ==> w'.StorageAt(a, l) == 0)
    && (forall a :: a in w.accounts && a !in dead ==> w'.accounts[a] == w.accounts[a])
  }

  lemma KillSeen(w: World, a: Address)
    ensures Killed(w, Kill(w, a), {a})
  {
  }

  /** What is read of the accounts that survive stays; the others are gone. */
  lemma CommitSeen(w: World, removeEmpty: bool, a: Address)
    ensures var w' := Commit(w, removeEmpty);
            && (a in w'.accounts <==> a in w.accounts && w.accounts[a].alive
                                      && !(removeEmpty && a in w.dirty && w.BalanceOf(a) == 0 && w.NonceOf(a) == 0
                                           && w.CodeOf(a) == []))
            && (a in w'.accounts ==>
                  && w'.BalanceOf(a) == w.BalanceOf(a) && w'.NonceOf(a) == w.NonceOf(a) && w'.CodeOf(a) == w.CodeOf(a)
                  && (forall l :: w'.StorageAt(a, l) == w.StorageAt(a, l)))
            && w'.trie == w'.accounts && w'.log == [] && w'.dirty == {} && w'.startNonce == w.startNonce
  {
  }
}
