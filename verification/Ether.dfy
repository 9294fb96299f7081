/** The sum of all balances, and what each balance operation does to it. */
module Ether {
  import opened Words
  import opened Journal

  ghost function Total(m: map<Address, Account>): nat {
    if m == map[] then 0 else
      var a :| a in m;
      m[a].balance + Total(m - {a})
  }

  function BalanceIn(m: map<Address, Account>, a: Address): u256 { if a in m then m[a].balance else 0 }

  lemma {:induction false} TotalSplit(m: map<Address, Account>, a: Address)
    requires a in m
    ensures Total(m) == m[a].balance + Total(m - {a})
    decreases |m|
  {
    var b :| b in m && Total(m) == m[b].balance + Total(m - {b});
    if b != a {
      TotalSplit(m - {b}, a);
      TotalSplit(m - {a}, b);
      assert m - {b} - {a} == m - {a} - {b};
    }
  }

  lemma TotalPut(m: map<Address, Account>, a: Address, acct: Account)
    ensures Total(m[a := acct]) == Total(m) - BalanceIn(m, a) + acct.balance
  {
    var m' := m[a := acct];
    TotalSplit(m', a);
    assert m' - {a} == m - {a};
    if a in m {
      TotalSplit(m, a);
    } else {
      assert m - {a} == m;
    }
  }

  lemma TotalCovers(m: map<Address, Account>, a: Address)
    ensures BalanceIn(m, a) <= Total(m)
  {
    if a in m {
      TotalSplit(m, a);
    }
  }

  lemma TotalCoversTwo(m: map<Address, Account>, a: Address, b: Address)
    requires a != b
    ensures BalanceIn(m, a) + BalanceIn(m, b) <= Total(m)
  {
    if a in m {
      TotalSplit(m, a);
      TotalCovers(m - {a}, b);
    } else {
      TotalCovers(m, b);
    }
  }

  lemma AddBalanceTotal(w: World, a: Address, v: u256)
    ensures Total(AddBalance(w, a, v).accounts) == Total(w.accounts) - w.BalanceOf(a) + Add(w.BalanceOf(a), v)
  {
    TotalPut(w.accounts, a, AddBalance(w, a, v).accounts[a]);
  }

  lemma SubBalanceTotal(w: World, a: Address, v: u256)
    requires !NotEnoughCash(w, a, v)
    ensures Total(SubBalance(w, a, v).accounts) == Total(w.accounts) - v
    ensures SubBalance(w, a, v).BalanceOf(a) == w.BalanceOf(a) - v
    ensures forall b :: b != a ==> SubBalance(w, a, v).BalanceOf(b) == w.BalanceOf(b)
  {
    if v != 0 {
      AddBalanceTotal(w, a, Neg(v));
    }
  }

  /** A transfer, even to oneself, moves ether without making or losing any. */
  lemma TransferTotal(w: World, from: Address, to: Address, v: u256)
    requires !NotEnoughCash(w, from, v) && Total(w.accounts) < TWO_256
    ensures Total(Transfer(w, from, to, v).accounts) == Total(w.accounts)
  {
    var w' := SubBalance(w, from, v);
    SubBalanceTotal(w, from, v);
    AddBalanceTotal(w', to, v);
    TotalCovers(w'.accounts, to);
  }

  lemma NonceTotal(w: World, a: Address, n: u256)
    ensures Total(IncNonce(w, a).accounts) == Total(w.accounts)
    ensures Total(SetNonce(w, a, n).accounts) == Total(w.accounts)
  {
    TotalPut(w.accounts, a, IncNonce(w, a).accounts[a]);
    TotalPut(w.accounts, a, SetNonce(w, a, n).accounts[a]);
  }

  lemma SetStorageTotal(w: World, a: Address, k: u256, v: u256)
    requires a in w.accounts
    ensures Total(SetStorage(w, a, k, v).accounts) == Total(w.accounts)
  {
    TotalPut(w.accounts, a, SetStorage(w, a, k, v).accounts[a]);
  }

  lemma ClearStorageTotal(w: World, a: Address)
    requires a in w.accounts
    ensures Total(ClearStorage(w, a).accounts) == Total(w.accounts)
  {
    TotalPut(w.accounts, a, ClearStorage(w, a).accounts[a]);
  }

  lemma SetCodeTotal(w: World, a: Address, code: Bytes)
    requires a in w.accounts
    ensures Total(SetCode(w, a, code).accounts) == Total(w.accounts)
  {
    TotalPut(w.accounts, a, SetCode(w, a, code).accounts[a]);
  }

  /** What `ExtVM::suicide` does to the balances. */
  function Bequeath(w: World, me: Address, heir: Address): World {
    SetBalance(AddBalance(w, heir, w.BalanceOf(me)), me, 0)
  }

  /** A suicide passes its balance on; one that names itself as heir destroys it. */
  lemma BequeathTotal(w: World, me: Address, heir: Address)
    requires Total(w.accounts) < TWO_256
    ensures Total(Bequeath(w, me, heir).accounts)
            == Total(w.accounts) - (if heir == me then w.BalanceOf(me) else 0)
  {
    var b := w.BalanceOf(me);
    var w' := AddBalance(w, heir, b);
    AddBalanceTotal(w, heir, b);
    AddBalanceTotal(w', me, Sub(0, w'.BalanceOf(me)));
    if heir != me {
      TotalCoversTwo(w.accounts, me, heir);
    }
  }
}
