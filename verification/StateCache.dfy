/**
 The write-back account cache over the state trie.  The trie, the cache, the set of addresses known not to exist,
 the list of evictable entries and the change log are updated in place; every operation is shown to act on the
 world the callers see (`Abs`) as its counterpart in module Journal does, so loads and random evictions are
 invisible.
 */
module StateCache {
  import opened Words
  import opened Journal
  import opened JournalUndo
  import opened WorldLaws

  /** Hashes are injective, so a code hash is modelled by the code it was made from. */
  datatype CodeHash = Sha3(preimage: Bytes)

  const EMPTY_SHA3 := Sha3([])

  /** An account as the trie stores it. */
  datatype TrieAccount = TrieAccount(nonce: u256, balance: u256, root: Storage, codeHash: CodeHash)

  /** An account as the cache holds it: `overlay` lies over the storage named by `root`. */
  datatype Cached = Cached(alive: bool, clean: bool, newCode: bool, nonce: u256, balance: u256,
                           root: Storage, codeHash: CodeHash, overlay: map<u256, u256>, codeCache: Bytes)
  {
    predicate IsEmpty() { nonce == 0 && balance == 0 && codeHash == EMPTY_SHA3 }
    function PlusBalance(v: u256): Cached { this.(balance := Add(balance, v), clean := false) }
    function WithNonce(n: u256): Cached { this.(nonce := n, clean := false) }
    function WithSlot(k: u256, v: u256): Cached { this.(overlay := overlay[k := v], clean := false) }
    function WithRoot(r: Storage): Cached { this.(overlay := map[], root := r, clean := false) }
    function WithCode(code: Bytes): Cached { this.(codeCache := code, newCode := true, codeHash := Sha3(code)) }
    function Killed(): Cached {
      this.(alive := false, overlay := map[], codeHash := EMPTY_SHA3, root := map[], balance := 0, nonce := 0,
            clean := false)
    }
  }

  function Fresh(nonce: u256, balance: u256): Cached {
    Cached(true, false, false, nonce, balance, map[], EMPTY_SHA3, map[], [])
  }

  function Loaded(t: TrieAccount): Cached {
    Cached(true, true, false, t.nonce, t.balance, t.root, t.codeHash, map[], [])
  }

  function Overlaid(root: Storage, overlay: map<u256, u256>): Storage {
    map k | k in root.Keys + overlay.Keys && (if k in overlay then overlay[k] else root[k]) != 0 ::
      if k in overlay then overlay[k] else root[k]
  }

  function View(c: Cached): Account {
    Account(c.alive, c.nonce, c.balance, c.codeHash.preimage, c.root, Overlaid(c.root, c.overlay))
  }

  function TrieView(t: TrieAccount): Account {
    Account(true, t.nonce, t.balance, t.codeHash.preimage, t.root, t.root)
  }

  /** What the switch in `rollback` does to the cached account; a Create erases it instead. */
  function Reverted(c: Cached, change: Change): Cached {
    match change
    case StorageSlot(_, k, v) => c.WithSlot(k, v)
    case StorageRoot(_, root) => c.WithRoot(root)
    case Balance(_, delta) => c.PlusBalance(Neg(delta))
    case Nonce(_, prior) => c.WithNonce(prior)
    case Code(_, prior) => c.WithCode(prior)
    case Touch(_) => c.(clean := true)
    case Create(_) => c
  }

  ghost function Accounts(trie: map<Address, TrieAccount>, cache: map<Address, Cached>): map<Address, Account> {
    map a | a in trie.Keys + cache.Keys :: if a in cache then View(cache[a]) else TrieView(trie[a])
  }

  ghost function Dirty(cache: map<Address, Cached>): set<Address> { set a | a in cache && !cache[a].clean }

  ghost function TrieAccounts(trie: map<Address, TrieAccount>): map<Address, Account> {
    map a | a in trie :: TrieView(trie[a])
  }

  /** The code of a cached account can be had from its cache or from the database. */
  ghost predicate CodeAtHand(codes: map<CodeHash, Bytes>, c: Cached) {
    if c.newCode then
      c.codeCache == c.codeHash.preimage || (!c.alive && c.codeHash == EMPTY_SHA3)
    else
      c.codeHash == EMPTY_SHA3 || (c.codeHash in codes && (c.codeCache == [] || c.codeCache == c.codeHash.preimage))
  }

  /** An address listed as absent is neither in the trie nor in the cache. */
  ghost predicate AbsentOk(trie: map<Address, TrieAccount>, cache: map<Address, Cached>, nonExisting: set<Address>,
                           a: Address)
  {
    a in nonExisting ==> a !in trie && a !in cache
  }

  ghost predicate CodeOk(codes: map<CodeHash, Bytes>, h: CodeHash) { h in codes ==> codes[h] == h.preimage }

  ghost predicate TrieCodeOk(trie: map<Address, TrieAccount>, codes: map<CodeHash, Bytes>, a: Address) {
    a in trie ==> trie[a].codeHash == EMPTY_SHA3 || trie[a].codeHash in codes
  }

  ghost predicate CachedCodeOk(codes: map<CodeHash, Bytes>, cache: map<Address, Cached>, a: Address) {
    a in cache ==> CodeAtHand(codes, cache[a])
  }

  ghost predicate RepOk(trie: map<Address, TrieAccount>, codes: map<CodeHash, Bytes>, cache: map<Address, Cached>,
                        nonExisting: set<Address>)
  {
    && (forall a {:trigger AbsentOk(trie, cache, nonExisting, a)} :: AbsentOk(trie, cache, nonExisting, a))
    && (forall h {:trigger CodeOk(codes, h)} :: CodeOk(codes, h))
    && (forall a {:trigger TrieCodeOk(trie, codes, a)} :: TrieCodeOk(trie, codes, a))
    && (forall a {:trigger CachedCodeOk(codes, cache, a)} :: CachedCodeOk(codes, cache, a))
  }

  // ---------------------------------------------------------------- lemmas on the representation

  /** Storing an account that was cached, or is no longer listed as absent. */
  lemma RepStore(trie: map<Address, TrieAccount>, codes: map<CodeHash, Bytes>, cache: map<Address, Cached>,
                 nonExisting: set<Address>, absent: set<Address>, a: Address, c: Cached)
    requires RepOk(trie, codes, cache, nonExisting) && CodeAtHand(codes, c)
    requires absent <= nonExisting && (a in cache || a !in absent)
    ensures RepOk(trie, codes, cache[a := c], absent)
  {
    var cache' := cache[a := c];
    forall b
      ensures AbsentOk(trie, cache', absent, b) && CachedCodeOk(codes, cache', b)
    {
      assert AbsentOk(trie, cache, nonExisting, b) && CachedCodeOk(codes, cache, b);
    }
  }

  lemma RepErase(trie: map<Address, TrieAccount>, codes: map<CodeHash, Bytes>, cache: map<Address, Cached>,
                 nonExisting: set<Address>, a: Address)
    requires RepOk(trie, codes, cache, nonExisting)
    ensures RepOk(trie, codes, cache - {a}, nonExisting)
  {
    var cache' := cache - {a};
    forall b
      ensures AbsentOk(trie, cache', nonExisting, b) && CachedCodeOk(codes, cache', b)
    {
      assert AbsentOk(trie, cache, nonExisting, b) && CachedCodeOk(codes, cache, b);
    }
  }

  lemma OverlaySlot(root: Storage, overlay: map<u256, u256>, k: u256)
    ensures Slot(Overlaid(root, overlay), k) == if k in overlay then overlay[k] else Slot(root, k)
  {
  }

  lemma OverlayPut(root: Storage, overlay: map<u256, u256>, k: u256, v: u256)
    ensures Overlaid(root, overlay[k := v]) == PutSlot(Overlaid(root, overlay), k, v)
  {
  }

  lemma OverlayRead(c: Cached, k: u256)
    requires k !in c.overlay
    ensures View(c.(overlay := c.overlay[k := Slot(c.root, k)])) == View(c)
  {
    OverlayPut(c.root, c.overlay, k, Slot(c.root, k));
    assert PutSlot(Overlaid(c.root, c.overlay), k, Slot(c.root, k)) == Overlaid(c.root, c.overlay);
  }

  lemma OverlayEmpty(root: Storage)
    ensures Overlaid(root, map[]) == root
  {
  }

  lemma RevertedView(c: Cached, change: Change)
    requires !change.Create?
    ensures var r := View(Reverted(c, change));
            match change
            case StorageSlot(_, k, v) => r == View(c).(storage := PutSlot(View(c).storage, k, v))
            case StorageRoot(_, root) => r == View(c).(base := root, storage := root)
            case Balance(_, delta) => r == View(c).(balance := Add(c.balance, Neg(delta)))
            case Nonce(_, prior) => r == View(c).(nonce := prior)
            case Code(_, prior) => r == View(c).(code := prior)
            case Touch(_) => r == View(c)
  {
    match change
    case StorageSlot(_, k, v) => OverlayPut(c.root, c.overlay, k, v);
    case StorageRoot(_, root) => OverlayEmpty(root);
    case _ =>
  }

  /** Undoing a change other than a creation writes one account. */
  lemma UndoAsWrite(w: World, change: Change, c: Cached)
    requires !change.Create? && change.addr in w.accounts && w.accounts[change.addr] == View(c)
    requires change.addr in w.dirty && !c.clean
    ensures var a, r := change.addr, Reverted(c, change);
            && UndoChange(w, change).accounts == w.accounts[a := View(r)]
            && UndoChange(w, change).dirty == if r.clean then w.dirty - {a} else w.dirty + {a}
  {
    RevertedView(c, change);
    if change.Touch? {
      assert w.accounts[change.addr := View(c)] == w.accounts;
    }
  }

  lemma CacheUpdate(trie: map<Address, TrieAccount>, cache: map<Address, Cached>, a: Address, c: Cached)
    ensures Accounts(trie, cache[a := c]) == Accounts(trie, cache)[a := View(c)]
    ensures Dirty(cache[a := c]) == if c.clean then Dirty(cache) - {a} else Dirty(cache) + {a}
  {
  }

  lemma CacheErase(trie: map<Address, TrieAccount>, cache: map<Address, Cached>, a: Address)
    ensures a !in trie ==> Accounts(trie, cache - {a}) == Accounts(trie, cache) - {a}
    ensures a in trie && a in cache && View(cache[a]) == TrieView(trie[a])
            ==> Accounts(trie, cache - {a}) == Accounts(trie, cache)
    ensures Dirty(cache - {a}) == Dirty(cache) - {a}
  {
  }

  lemma RepAbsent(trie: map<Address, TrieAccount>, codes: map<CodeHash, Bytes>, cache: map<Address, Cached>,
                  nonExisting: set<Address>, a: Address)
    requires RepOk(trie, codes, cache, nonExisting) && a !in cache && a !in trie
    ensures RepOk(trie, codes, cache, nonExisting + {a})
  {
    var absent := nonExisting + {a};
    forall b
      ensures AbsentOk(trie, cache, absent, b)
    {
      assert AbsentOk(trie, cache, nonExisting, b);
    }
  }

  lemma RepLoad(trie: map<Address, TrieAccount>, codes: map<CodeHash, Bytes>, cache: map<Address, Cached>,
                nonExisting: set<Address>, a: Address)
    requires RepOk(trie, codes, cache, nonExisting) && a !in cache && a in trie
    ensures RepOk(trie, codes, cache[a := Loaded(trie[a])], nonExisting)
  {
    assert AbsentOk(trie, cache, nonExisting, a) && TrieCodeOk(trie, codes, a);
    RepStore(trie, codes, cache, nonExisting, nonExisting, a, Loaded(trie[a]));
  }

  lemma CacheLoad(trie: map<Address, TrieAccount>, cache: map<Address, Cached>, a: Address)
    requires a in trie && a !in cache
    ensures Accounts(trie, cache[a := Loaded(trie[a])]) == Accounts(trie, cache)
    ensures Dirty(cache[a := Loaded(trie[a])]) == Dirty(cache)
  {
    OverlayEmpty(trie[a].root);
  }

  ghost function Seen(trie: map<Address, TrieAccount>, cache: map<Address, Cached>, log: seq<Change>,
                      startNonce: u256): World
  {
    World(Accounts(trie, cache), Dirty(cache), log, TrieAccounts(trie), startNonce)
  }

  /** Store a dirty account in the cache. */
  method Stored(ghost trie: map<Address, TrieAccount>, ghost codes: map<CodeHash, Bytes>, cache: map<Address, Cached>,
                ghost nonExisting: set<Address>, ghost log: seq<Change>, ghost startNonce: u256, a: Address, c: Cached)
    returns (stored: map<Address, Cached>)
    requires RepOk(trie, codes, cache, nonExisting) && CodeAtHand(codes, c) && !c.clean
    ensures Seen(trie, stored, log, startNonce) == Seen(trie, cache, log, startNonce).Put(a, View(c), [])
    ensures RepOk(trie, codes, stored, nonExisting - {a})
    ensures a in cache ==> RepOk(trie, codes, stored, nonExisting)
  {
    assert log + [] == log;
    stored := cache[a := c];
    CacheUpdate(trie, cache, a, c);
    RepStore(trie, codes, cache, nonExisting, nonExisting - {a}, a, c);
    if a in cache {
      RepStore(trie, codes, cache, nonExisting, nonExisting, a, c);
    }
  }

  /** Load an account of the trie into the cache. */
  method LoadInto(trie: map<Address, TrieAccount>, ghost codes: map<CodeHash, Bytes>, cache: map<Address, Cached>,
                  ghost nonExisting: set<Address>, ghost log: seq<Change>, ghost startNonce: u256, a: Address)
    returns (loaded: map<Address, Cached>)
    requires RepOk(trie, codes, cache, nonExisting) && a in trie && a !in cache
    ensures Seen(trie, loaded, log, startNonce) == Seen(trie, cache, log, startNonce)
    ensures RepOk(trie, codes, loaded, nonExisting) && a in loaded
  {
    loaded := cache[a := Loaded(trie[a])];
    CacheLoad(trie, cache, a);
    RepLoad(trie, codes, cache, nonExisting, a);
  }

  /** A clean entry may be dropped from the cache. */
  lemma CleanMayGo(trie: map<Address, TrieAccount>, codes: map<CodeHash, Bytes>, cache: map<Address, Cached>,
                   nonExisting: set<Address>, log: seq<Change>, startNonce: u256, a: Address)
    requires RepOk(trie, codes, cache, nonExisting) && CleanAgrees(Seen(trie, cache, log, startNonce))
    requires a in cache && cache[a].clean
    ensures RepOk(trie, codes, cache - {a}, nonExisting)
    ensures Seen(trie, cache - {a}, log, startNonce) == Seen(trie, cache, log, startNonce)
  {
    var w := Seen(trie, cache, log, startNonce);
    assert a in w.accounts && a !in w.dirty;
    CacheErase(trie, cache, a);
    RepErase(trie, codes, cache, nonExisting, a);
  }

  lemma KillKeepsClean(w: World, a: Address)
    requires CleanAgrees(w)
    ensures CleanAgrees(Journal.Kill(w, a))
  {
  }

  lemma KillIsPut(w: World, c: Cached, a: Address)
    requires CleanAgrees(w) && a in w.accounts
    ensures Journal.Kill(w, a) == w.Put(a, View(c.Killed()), []) && CleanAgrees(w.Put(a, View(c.Killed()), []))
  {
    OverlayEmpty(map[]);
    KillKeepsClean(w, a);
  }

  function RevertedCache(cache: map<Address, Cached>, change: Change): map<Address, Cached>
    requires change.addr in cache
  {
    if change.Create? then cache - {change.addr} else cache[change.addr := Reverted(cache[change.addr], change)]
  }

  lemma LastIsCached(trie: map<Address, TrieAccount>, cache: map<Address, Cached>, log: seq<Change>, startNonce: u256)
    requires log != [] && Undoable(Seen(trie, cache, log, startNonce))
    ensures var c := log[|log| - 1];
            && CanUndo(Seen(trie, cache, log, startNonce))
            && Undoable(Undo(Seen(trie, cache, log, startNonce)))
            && c.addr in cache && !cache[c.addr].clean
            && (c.Create? ==> c.addr !in trie)
  {
    var w := Seen(trie, cache, log, startNonce);
    UndoableParts(w);
    UndoableParts(Undo(w));
    var c := log[|log| - 1];
    if c.Create? {
      assert c.addr !in Undo(w).accounts && c.addr !in Undo(w).dirty;
      assert c.addr !in Undo(w).trie;
    }
  }

  /** One turn of the rollback loop, on the representation. */
  lemma UndoneWorld(trie: map<Address, TrieAccount>, cache: map<Address, Cached>, log: seq<Change>, startNonce: u256)
    requires log != [] && Undoable(Seen(trie, cache, log, startNonce))
    ensures var n, w := |log| - 1, Seen(trie, cache, log, startNonce);
            && CanUndo(w) && log[n].addr in cache && Undoable(Undo(w))
            && Seen(trie, RevertedCache(cache, log[n]), log[..n], startNonce) == Undo(w)
  {
    LastIsCached(trie, cache, log, startNonce);
    var n, c := |log| - 1, log[|log| - 1];
    if c.Create? {
      CacheErase(trie, cache, c.addr);
    } else {
      CacheUpdate(trie, cache, c.addr, Reverted(cache[c.addr], c));
      UndoAsWrite(Seen(trie, cache, log[..n], startNonce), c, cache[c.addr]);
    }
  }

  method UndoneCache(ghost trie: map<Address, TrieAccount>, ghost codes: map<CodeHash, Bytes>,
                     cache: map<Address, Cached>, ghost nonExisting: set<Address>, log: seq<Change>,
                     ghost startNonce: u256)
    returns (undone: map<Address, Cached>)
    requires log != [] && RepOk(trie, codes, cache, nonExisting) && Undoable(Seen(trie, cache, log, startNonce))
    ensures CanUndo(Seen(trie, cache, log, startNonce))
    ensures Seen(trie, undone, log[..|log| - 1], startNonce) == Undo(Seen(trie, cache, log, startNonce))
    ensures Undoable(Seen(trie, undone, log[..|log| - 1], startNonce))
    ensures RepOk(trie, codes, undone, nonExisting)
  {
    UndoneWorld(trie, cache, log, startNonce);
    undone := RevertedCache(cache, log[|log| - 1]);
    RepReverted(trie, codes, cache, nonExisting, log[|log| - 1]);
  }

  lemma RepReverted(trie: map<Address, TrieAccount>, codes: map<CodeHash, Bytes>, cache: map<Address, Cached>,
                    nonExisting: set<Address>, change: Change)
    requires RepOk(trie, codes, cache, nonExisting) && change.addr in cache
    ensures RepOk(trie, codes, RevertedCache(cache, change), nonExisting)
  {
    assert CachedCodeOk(codes, cache, change.addr);
    if change.Create? {
      RepErase(trie, codes, cache, nonExisting, change.addr);
    } else {
      RepStore(trie, codes, cache, nonExisting, nonExisting, change.addr, Reverted(cache[change.addr], change));
    }
  }

  /** Codes after an entry was written back. */
  function CodesWith(codes: map<CodeHash, Bytes>, c: Cached): map<CodeHash, Bytes> {
    if c.newCode then codes[c.codeHash := c.codeCache] else codes
  }

  /** Writing an entry back, or removing it. */
  lemma RepWrite(trie: map<Address, TrieAccount>, codes: map<CodeHash, Bytes>, cache: map<Address, Cached>,
                 nonExisting: set<Address>, a: Address)
    requires RepOk(trie, codes, cache, nonExisting) && a in cache
    ensures RepOk(trie - {a}, codes, cache, nonExisting)
    ensures cache[a].alive ==> RepOk(trie[a := ToTrie(cache[a])], CodesWith(codes, cache[a]), cache, nonExisting)
  {
    var c := cache[a];
    var less, more, codes' := trie - {a}, trie[a := ToTrie(c)], CodesWith(codes, c);
    forall b
      ensures AbsentOk(less, cache, nonExisting, b) && TrieCodeOk(less, codes, b)
      ensures AbsentOk(more, cache, nonExisting, b)
    {
      assert AbsentOk(trie, cache, nonExisting, b) && TrieCodeOk(trie, codes, b);
    }
    if c.alive {
      assert CachedCodeOk(codes, cache, a);
      forall b
        ensures TrieCodeOk(more, codes', b) && CachedCodeOk(codes', cache, b)
      {
        assert TrieCodeOk(trie, codes, b) && CachedCodeOk(codes, cache, b);
      }
      forall h
        ensures CodeOk(codes', h)
      {
        assert CodeOk(codes, h);
      }
    }
  }

  function ToTrie(c: Cached): TrieAccount { TrieAccount(c.nonce, c.balance, Overlaid(c.root, c.overlay), c.codeHash) }

  /** The cache after its dirty empty accounts among `done` have been killed. */
  ghost function WithoutEmpty(cache: map<Address, Cached>, done: set<Address>): map<Address, Cached> {
    map a | a in cache :: if a in done && !cache[a].clean && cache[a].IsEmpty() then cache[a].Killed() else cache[a]
  }

  /** `a` in `trie'` is what writing back the cache entries among `done` leaves of it. */
  ghost predicate WrittenBack(trie: map<Address, TrieAccount>, cache: map<Address, Cached>, done: set<Address>,
                              trie': map<Address, TrieAccount>, a: Address)
  {
    if a in done && a in cache && !cache[a].clean then
      if cache[a].alive then a in trie' && trie'[a] == ToTrie(cache[a]) else a !in trie'
    else
      (a in trie' <==> a in trie) && (a in trie' ==> trie'[a] == trie[a])
  }

  /** What `trie` has of `a` is what committing `w` leaves of it. */
  ghost predicate Kept(w: World, removeEmpty: bool, trie: map<Address, TrieAccount>, a: Address) {
    && (a in trie <==> a in w.accounts && Survives(w, a, removeEmpty))
    && (a in trie ==> TrieView(trie[a]) == w.accounts[a].(base := w.accounts[a].storage))
  }

  lemma CommittedAccount(trie: map<Address, TrieAccount>, cache: map<Address, Cached>, removeEmpty: bool,
                         trie': map<Address, TrieAccount>, w: World, a: Address)
    requires CleanAgrees(w) && w.accounts == Accounts(trie, cache) && w.dirty == Dirty(cache)
    requires w.trie == TrieAccounts(trie)
    requires var cache' := if removeEmpty then WithoutEmpty(cache, cache.Keys) else cache;
             WrittenBack(trie, cache', cache.Keys, trie', a)
    ensures Kept(w, removeEmpty, trie', a)
  {
    if a in cache && cache[a].clean {
      assert a in w.accounts && a !in w.dirty;
      assert w.accounts[a] == TrieView(trie[a]);
    }
  }

  lemma KeptWorld(w: World, removeEmpty: bool, trie: map<Address, TrieAccount>)
    requires forall a :: Kept(w, removeEmpty, trie, a)
    ensures TrieAccounts(trie) == Journal.Commit(w, removeEmpty).trie
  {
    var kept := Journal.Commit(w, removeEmpty).trie;
    forall a
      ensures a in trie <==> a in kept
      ensures a in trie ==> TrieView(trie[a]) == kept[a]
    {
      assert Kept(w, removeEmpty, trie, a);
    }
    assert TrieAccounts(trie).Keys == kept.Keys;
  }

  lemma CommittedWorld(trie: map<Address, TrieAccount>, cache: map<Address, Cached>, removeEmpty: bool,
                       trie': map<Address, TrieAccount>, w: World)
    requires CleanAgrees(w) && w.accounts == Accounts(trie, cache) && w.dirty == Dirty(cache)
    requires w.trie == TrieAccounts(trie)
    requires var cache' := if removeEmpty then WithoutEmpty(cache, cache.Keys) else cache;
             forall a :: WrittenBack(trie, cache', cache.Keys, trie', a)
    ensures TrieAccounts(trie') == Journal.Commit(w, removeEmpty).trie
  {
    var cache' := if removeEmpty then WithoutEmpty(cache, cache.Keys) else cache;
    forall a
      ensures Kept(w, removeEmpty, trie', a)
    {
      assert WrittenBack(trie, cache', cache.Keys, trie', a);
      CommittedAccount(trie, cache, removeEmpty, trie', w, a);
    }
    KeptWorld(w, removeEmpty, trie');
  }

  lemma RepWithoutEmpty(trie: map<Address, TrieAccount>, codes: map<CodeHash, Bytes>, cache: map<Address, Cached>,
                        nonExisting: set<Address>)
    requires RepOk(trie, codes, cache, nonExisting)
    ensures RepOk(trie, codes, WithoutEmpty(cache, cache.Keys), nonExisting)
    ensures WithoutEmpty(cache, cache.Keys).Keys == cache.Keys
  {
    var cache' := WithoutEmpty(cache, cache.Keys);
    forall a
      ensures AbsentOk(trie, cache', nonExisting, a) && CachedCodeOk(codes, cache', a)
    {
      assert AbsentOk(trie, cache, nonExisting, a) && CachedCodeOk(codes, cache, a);
    }
  }

  lemma RepUncached(trie: map<Address, TrieAccount>, codes: map<CodeHash, Bytes>, cache: map<Address, Cached>,
                    nonExisting: set<Address>)
    requires RepOk(trie, codes, cache, nonExisting)
    ensures RepOk(trie, codes, map[], nonExisting)
  {
    var none: map<Address, Cached> := map[];
    forall a
      ensures AbsentOk(trie, none, nonExisting, a)
    {
      assert AbsentOk(trie, cache, nonExisting, a);
    }
  }

  /** With an empty cache and an empty log the world is the trie. */
  lemma SeenUncached(trie: map<Address, TrieAccount>, startNonce: u256)
    ensures Seen(trie, map[], [], startNonce) == World(TrieAccounts(trie), {}, [], TrieAccounts(trie), startNonce)
    ensures Undoable(Seen(trie, map[], [], startNonce))
  {
    assert Accounts(trie, map[]) == TrieAccounts(trie);
    assert UndoableNow(Seen(trie, map[], [], startNonce));
  }

  // ---------------------------------------------------------------- the state

  /** How many evictable entries the cache keeps before it drops some. */
  const MAX_EVICTABLE := 1000

  class State {
    var trie: map<Address, TrieAccount>
    var codes: map<CodeHash, Bytes>
    var cache: map<Address, Cached>
    var evictable: seq<Address>
    var nonExisting: set<Address>
    var changeLog: seq<Change>
    /** Suicides are being processed: from the first `kill` until `commit` nothing may be rolled back. */
    ghost var closing: bool
    const startNonce: u256

    /** The world the callers of State see. */
    ghost function Abs(): World
      reads this
    {
      Seen(trie, cache, changeLog, startNonce)
    }

    ghost predicate Valid()
      reads this
    {
      && RepOk(trie, codes, cache, nonExisting)
      && (closing ==> CleanAgrees(Abs()))
      && (!closing ==> Undoable(Abs()))
    }

    ghost predicate Open()
      reads this
    {
      Valid() && !closing
    }

    constructor (startNonce: u256)
      ensures Open() && Abs() == World(map[], {}, [], map[], startNonce)
    {
      this.startNonce := startNonce;
      closing := false;
      trie, codes, cache, evictable, nonExisting, changeLog := map[], map[], map[], [], {}, [];
    }

    /** Write one cached account back into the cache. */
    lemma Written(a: Address, c: Cached)
      ensures Accounts(trie, cache[a := c]) == Abs().accounts[a := View(c)]
      ensures Dirty(cache[a := c]) == if c.clean then Abs().dirty - {a} else Abs().dirty + {a}
    {
      CacheUpdate(trie, cache, a, c);
    }

    // -------------------------------------------------------------- lookups

    /** Take a random entry off the evictable list; drop it from the cache unless it has become dirty. */
    method EvictOne()
      requires Valid() && evictable != []
      modifies this`cache, this`evictable
      ensures Valid() && Abs() == old(Abs())
      ensures cache.Keys <= old(cache.Keys) && |evictable| == |old(evictable)| - 1
    {
      var i: nat :| i < |evictable|;
      var addr := evictable[i];
      var last := |evictable| - 1;
      evictable := evictable[i := evictable[last]][..last];
      if addr in cache && cache[addr].clean {
        assert CleanAgrees(Abs()) by {
          if !closing { UndoableParts(Abs()); }
        }
        CleanMayGo(trie, codes, cache, nonExisting, changeLog, startNonce, addr);
        cache := cache - {addr};
      }
    }

    method ClearCacheIfTooLarge()
      requires Valid()
      modifies this`cache, this`evictable
      ensures Valid() && Abs() == old(Abs())
      ensures cache.Keys <= old(cache.Keys) && |evictable| <= MAX_EVICTABLE
    {
      while |evictable| > MAX_EVICTABLE
        invariant Valid() && Abs() == old(Abs()) && cache.Keys <= old(cache.Keys)
      {
        EvictOne();
      }
    }

    /** Find an account, loading it into the cache if the trie has it. */
    method Find(a: Address) returns (found: bool)
      requires Valid()
      modifies this`cache, this`evictable, this`nonExisting
      ensures Valid() && Abs() == old(Abs())
      ensures found <==> a in Abs().accounts
      ensures found <==> a in cache
    {
      if a in cache {
        return true;
      }
      assert AbsentOk(trie, cache, nonExisting, a);
      if a in nonExisting {
        return false;
      }
      if a !in trie {
        RepAbsent(trie, codes, cache, nonExisting, a);
        nonExisting := nonExisting + {a};
        return false;
      }
      Load(a);
      found := true;
    }

    /** Load an account of the trie, after making room for it. */
    method Load(a: Address)
      requires Valid() && a in trie && a !in cache
      modifies this`cache, this`evictable
      ensures Valid() && Abs() == old(Abs()) && a in cache
    {
      ClearCacheIfTooLarge();
      cache := LoadInto(trie, codes, cache, nonExisting, changeLog, startNonce, a);
      evictable := evictable + [a];
    }

    // -------------------------------------------------------------- mutators

    method CreateAccount(a: Address, nonce: u256, balance: u256)
      requires Open() && a !in Abs().accounts
      modifies this`cache, this`nonExisting, this`changeLog
      ensures Open() && Abs() == old(Abs()).Put(a, NewAccount(nonce, balance), [Create(a)])
    {
      var c := Fresh(nonce, balance);
      assert Undoable(Abs().Put(a, NewAccount(nonce, balance), [Create(a)])) by {
        CreateReverts(Abs(), a, nonce, balance);
      }
      OverlayEmpty(map[]);
      changeLog := changeLog + [Create(a)];
      cache := Stored(trie, codes, cache, nonExisting, changeLog, startNonce, a, c);
      nonExisting := nonExisting - {a};
      assert changeLog + [] == changeLog;
    }

    /** Overwrite a cached account and append to the change log. */
    method Write(a: Address, c: Cached, entries: seq<Change>)
      requires Open() && a in cache && !c.clean && CodeAtHand(codes, c)
      requires Undoable(Abs().Put(a, View(c), entries))
      modifies this`cache, this`changeLog
      ensures Open() && Abs() == old(Abs()).Put(a, View(c), entries)
    {
      changeLog := changeLog + entries;
      cache := Stored(trie, codes, cache, nonExisting, changeLog, startNonce, a, c);
      assert changeLog + [] == changeLog;
    }

    method IncNonce(a: Address)
      requires Open()
      modifies this`cache, this`evictable, this`nonExisting, this`changeLog
      ensures Open() && Abs() == Journal.IncNonce(old(Abs()), a)
      ensures NonceBecomes(old(Abs()), Abs(), a, (old(Abs()).NonceOf(a) + 1) % TWO_256)
    {
      IncNonceSeen(Abs(), a);
      var found := Find(a);
      assert Undoable(Journal.IncNonce(Abs(), a)) by { IncNonceReverts(Abs(), a); }
      if found {
        assert CachedCodeOk(codes, cache, a);
        Write(a, cache[a].WithNonce(Add(cache[a].nonce, 1)), [Nonce(a, cache[a].nonce)]);
      } else {
        CreateAccount(a, Add(startNonce, 1), 0);
      }
    }

    method SetNonce(a: Address, newNonce: u256)
      requires Open()
      modifies this`cache, this`evictable, this`nonExisting, this`changeLog
      ensures Open() && Abs() == Journal.SetNonce(old(Abs()), a, newNonce)
      ensures NonceBecomes(old(Abs()), Abs(), a, newNonce)
    {
      SetNonceSeen(Abs(), a, newNonce);
      var found := Find(a);
      assert Undoable(Journal.SetNonce(Abs(), a, newNonce)) by { SetNonceReverts(Abs(), a, newNonce); }
      if found {
        assert CachedCodeOk(codes, cache, a);
        Write(a, cache[a].WithNonce(newNonce), [Nonce(a, cache[a].nonce)]);
      } else {
        CreateAccount(a, newNonce, 0);
      }
    }

    method AddBalance(a: Address, amount: u256)
      requires Open()
      modifies this`cache, this`evictable, this`nonExisting, this`changeLog
      ensures Open() && Abs() == Journal.AddBalance(old(Abs()), a, amount)
      ensures BalanceBecomes(old(Abs()), Abs(), a, (old(Abs()).BalanceOf(a) + amount) % TWO_256)
    {
      AddBalanceSeen(Abs(), a, amount);
      var found := Find(a);
      if found {
        AddToCached(a, amount);
      } else {
        AddToNew(a, amount);
      }
    }

    method AddToCached(a: Address, amount: u256)
      requires Open() && a in cache
      modifies this`cache, this`changeLog
      ensures Open() && Abs() == Journal.AddBalance(old(Abs()), a, amount)
    {
      assert Undoable(Journal.AddBalance(Abs(), a, amount)) by { AddBalanceReverts(Abs(), a, amount); }
      assert CachedCodeOk(codes, cache, a);
      var touch := if cache[a].clean && cache[a].IsEmpty() then [Touch(a)] else [];
      Write(a, cache[a].PlusBalance(amount), touch + AmountLogged(a, amount));
    }

    method AddToNew(a: Address, amount: u256)
      requires Open() && a !in Abs().accounts
      modifies this`cache, this`nonExisting, this`changeLog
      ensures Open() && Abs() == Journal.AddBalance(old(Abs()), a, amount)
    {
      assert Undoable(Journal.AddBalance(Abs(), a, amount)) by { AddBalanceReverts(Abs(), a, amount); }
      CreateAccount(a, startNonce, amount);
      changeLog := changeLog + AmountLogged(a, amount);
      assert Abs().log == Journal.AddBalance(old(Abs()), a, amount).log;
    }

    /** `ok` is false where the code throws NotEnoughCash. */
    method SubBalance(a: Address, value: u256) returns (ok: bool)
      requires Open()
      modifies this`cache, this`evictable, this`nonExisting, this`changeLog
      ensures Open() && ok == !NotEnoughCash(old(Abs()), a, value)
      ensures Abs() == if ok then Journal.SubBalance(old(Abs()), a, value) else old(Abs())
      ensures ok && value != 0 ==> value <= old(Abs()).BalanceOf(a)
      ensures ok && value != 0 ==> BalanceBecomes(old(Abs()), Abs(), a, old(Abs()).BalanceOf(a) - value)
      ensures ok && value == 0 ==> Abs() == old(Abs())
    {
      if !NotEnoughCash(Abs(), a, value) {
        SubBalanceSeen(Abs(), a, value);
      }
      if value == 0 {
        return true;
      }
      var found := Find(a);
      if !found || cache[a].balance < value {
        return false;
      }
      AddBalance(a, Neg(value));
      ok := true;
    }

    method SetBalance(a: Address, value: u256)
      requires Open()
      modifies this`cache, this`evictable, this`nonExisting, this`changeLog
      ensures Open() && Abs() == Journal.SetBalance(old(Abs()), a, value)
      ensures BalanceBecomes(old(Abs()), Abs(), a, value)
    {
      SetBalanceSeen(Abs(), a, value);
      var found := Find(a);
      AddBalance(a, Sub(value, if found then cache[a].balance else 0));
    }

    method TransferBalance(from: Address, to: Address, value: u256) returns (ok: bool)
      requires Open()
      modifies this`cache, this`evictable, this`nonExisting, this`changeLog
      ensures Open() && ok == !NotEnoughCash(old(Abs()), from, value)
      ensures Abs() == if ok then Journal.Transfer(old(Abs()), from, to, value) else old(Abs())
      ensures ok ==> Moves(old(Abs()), Abs(), from, to, value)
    {
      if !NotEnoughCash(Abs(), from, value) {
        TransferSeen(Abs(), from, to, value);
      }
      ok := SubBalance(from, value);
      if ok {
        AddBalance(to, value);
      }
    }

    // -------------------------------------------------------------- queries

    method Balance(a: Address) returns (b: u256)
      requires Valid()
      modifies this`cache, this`evictable, this`nonExisting
      ensures Valid() && Abs() == old(Abs()) && b == Abs().BalanceOf(a)
    {
      var found := Find(a);
      b := if found then cache[a].balance else 0;
    }

    method GetNonce(a: Address) returns (n: u256)
      requires Valid()
      modifies this`cache, this`evictable, this`nonExisting
      ensures Valid() && Abs() == old(Abs()) && n == Abs().NonceOf(a)
    {
      var found := Find(a);
      n := if found then cache[a].nonce else startNonce;
    }

    lemma SameWorldSeen(a: Address, c: Cached)
      requires a in cache && View(c) == View(cache[a]) && c.clean == cache[a].clean
      ensures Accounts(trie, cache[a := c]) == Abs().accounts && Dirty(cache[a := c]) == Abs().dirty
    {
      Written(a, c);
    }

    /** Change a cached account in a way its reader cannot see. */
    method Refresh(a: Address, c: Cached)
      requires Valid() && a in cache && CodeAtHand(codes, c)
      requires View(c) == View(cache[a]) && c.clean == cache[a].clean
      modifies this`cache
      ensures Valid() && Abs() == old(Abs()) && cache == old(cache)[a := c]
    {
      SameWorldSeen(a, c);
      RepStore(trie, codes, cache, nonExisting, nonExisting, a, c);
      cache := cache[a := c];
    }

    /** Reading a slot remembers it in the overlay. */
    method Storage(a: Address, k: u256) returns (v: u256)
      requires Valid()
      modifies this`cache, this`evictable, this`nonExisting
      ensures Valid() && Abs() == old(Abs()) && v == Abs().StorageAt(a, k)
      ensures a in Abs().accounts ==> a in cache
    {
      var found := Find(a);
      if !found {
        return 0;
      }
      var c := cache[a];
      assert CachedCodeOk(codes, cache, a);
      OverlaySlot(c.root, c.overlay, k);
      if k in c.overlay {
        return c.overlay[k];
      }
      v := Slot(c.root, k);
      OverlayRead(c, k);
      Refresh(a, c.(overlay := c.overlay[k := v]));
    }

    /** Reading code fetches it from the database unless it is cached. */
    method Code(a: Address) returns (code: Bytes)
      requires Valid()
      modifies this`cache, this`evictable, this`nonExisting
      ensures Valid() && Abs() == old(Abs()) && code == Abs().CodeOf(a)
      ensures a in Abs().accounts ==> a in cache
    {
      var found := Find(a);
      if !found || cache[a].codeHash == EMPTY_SHA3 {
        return [];
      }
      assert CachedCodeOk(codes, cache, a) && CodeOk(codes, cache[a].codeHash);
      if cache[a].codeCache == [] {
        Refresh(a, cache[a].(codeCache := codes[cache[a].codeHash]));
      }
      code := cache[a].codeCache;
    }

    // -------------------------------------------------------------- storage, code, suicide

    method SetStorage(a: Address, k: u256, v: u256)
      requires Open() && a in Abs().accounts
      modifies this`cache, this`evictable, this`nonExisting, this`changeLog
      ensures Open() && Abs() == Journal.SetStorage(old(Abs()), a, k, v)
      ensures Abs().StorageAt(a, k) == v && SlotBecomes(old(Abs()), Abs(), a, k, v)
    {
      SetStorageSeen(Abs(), a, k, v);
      var prior := Storage(a, k);
      WriteSlot(a, k, v, prior);
    }

    method WriteSlot(a: Address, k: u256, v: u256, prior: u256)
      requires Open() && a in cache && prior == Abs().StorageAt(a, k)
      modifies this`cache, this`changeLog
      ensures Open() && Abs() == Journal.SetStorage(old(Abs()), a, k, v)
    {
      assert Undoable(Journal.SetStorage(Abs(), a, k, v)) by { SetStorageReverts(Abs(), a, k, v); }
      assert CachedCodeOk(codes, cache, a);
      OverlayPut(cache[a].root, cache[a].overlay, k, v);
      Write(a, cache[a].WithSlot(k, v), [StorageSlot(a, k, prior)]);
    }

    /** The code indexes the cache here without a lookup, so the account has to be in it. */
    method ClearStorage(a: Address)
      requires Open() && a in cache && MayClear(Abs(), a)
      modifies this`cache, this`changeLog
      ensures Open() && Abs() == Journal.ClearStorage(old(Abs()), a)
      ensures old(cache[a].root) != map[] ==> SlotsBecome(old(Abs()), Abs(), a, l => 0)
      ensures old(cache[a].root) == map[] ==> Abs() == old(Abs())
    {
      ClearStorageSeen(Abs(), a);
      if cache[a].root == map[] {
        return;
      }
      assert Undoable(Journal.ClearStorage(Abs(), a)) by { ClearStorageReverts(Abs(), a); }
      assert CachedCodeOk(codes, cache, a);
      OverlayEmpty(map[]);
      Write(a, cache[a].WithRoot(map[]), [StorageRoot(a, cache[a].root)]);
    }

    /** Deploying code does not mark the account dirty, so it has to be dirty already. */
    method SetCode(a: Address, code: Bytes)
      requires Open() && a in Abs().accounts && a in Abs().dirty
      modifies this`cache, this`evictable, this`nonExisting, this`changeLog
      ensures Open() && Abs() == Journal.SetCode(old(Abs()), a, code)
      ensures CodeBecomes(old(Abs()), Abs(), a, code)
    {
      SetCodeSeen(Abs(), a, code);
      var prior := Code(a);
      assert Undoable(Journal.SetCode(Abs(), a, code)) by { SetCodeReverts(Abs(), a, code); }
      assert Abs().dirty + {a} == Abs().dirty;
      Write(a, cache[a].WithCode(code), [Change.Code(a, prior)]);
    }

    method Kill(a: Address)
      requires Valid()
      modifies this`cache, this`evictable, this`nonExisting, this`closing
      ensures Valid() && closing && Abs() == Journal.Kill(old(Abs()), a)
      ensures Killed(old(Abs()), Abs(), {a})
    {
      KillSeen(Abs(), a);
      var found := Find(a);
      Close();
      if found {
        KillCached(a);
      }
    }

    /** From the first suicide on only the agreement of clean entries with the trie matters. */
    ghost method Close()
      requires Valid()
      modifies this`closing
      ensures Valid() && closing && Abs() == old(Abs())
    {
      assert CleanAgrees(Abs()) by {
        if !closing { UndoableParts(Abs()); }
      }
      closing := true;
    }

    method KillCached(a: Address)
      requires Valid() && closing && a in cache
      modifies this`cache
      ensures Valid() && Abs() == Journal.Kill(old(Abs()), a)
    {
      KillIsPut(Abs(), cache[a], a);
      cache := Stored(trie, codes, cache, nonExisting, changeLog, startNonce, a, cache[a].Killed());
    }

    // -------------------------------------------------------------- savepoints

    method Savepoint() returns (n: nat)
      ensures n == |Abs().log|
    {
      n := |changeLog|;
    }

    method Rollback(savepoint: nat)
      requires Open() && savepoint <= |Abs().log|
      modifies this`cache, this`evictable, this`changeLog
      ensures Open() && Abs() == Journal.Rollback(old(Abs()), savepoint)
    {
      while savepoint != |changeLog|
        invariant Open() && savepoint <= |changeLog|
        invariant Journal.Rollback(Abs(), savepoint) == Journal.Rollback(old(Abs()), savepoint)
        decreases |changeLog|
      {
        UndoLast();
      }
    }

    method UndoLast()
      requires Open() && changeLog != []
      modifies this`cache, this`evictable, this`changeLog
      ensures CanUndo(old(Abs())) && Open() && Abs() == Undo(old(Abs()))
    {
      var n := |changeLog| - 1;
      var change := changeLog[n];
      cache := UndoneCache(trie, codes, cache, nonExisting, changeLog, startNonce);
      changeLog := changeLog[..n];
      assert Undoable(Abs());
      if change.Touch? {
        evictable := evictable + [change.addr];
      }
    }

    // -------------------------------------------------------------- commit

    method RemoveEmptyAccounts()
      modifies this`cache
      ensures cache == WithoutEmpty(old(cache), old(cache).Keys)
    {
      var todo := cache.Keys;
      while todo != {}
        invariant todo <= cache.Keys == old(cache).Keys
        invariant cache == WithoutEmpty(old(cache), old(cache).Keys - todo)
        decreases todo
      {
        var a :| a in todo;
        if !cache[a].clean && cache[a].IsEmpty() {
          cache := cache[a := cache[a].Killed()];
        }
        todo := todo - {a};
      }
    }

    /** Write one dirty entry of the cache to the trie, or remove it if dead, and new code to the database. */
    method WriteOne(a: Address)
      requires RepOk(trie, codes, cache, nonExisting) && a in cache
      modifies this`trie, this`codes
      ensures RepOk(trie, codes, cache, nonExisting)
      ensures forall b :: WrittenBack(old(trie), cache, {a}, trie, b)
    {
      var c := cache[a];
      RepWrite(trie, codes, cache, nonExisting, a);
      if !c.clean {
        if !c.alive {
          trie := trie - {a};
        } else {
          if c.newCode {
            codes := codes[c.codeHash := c.codeCache];
          }
          trie := trie[a := ToTrie(c)];
        }
      }
    }

    method WriteBack()
      requires RepOk(trie, codes, cache, nonExisting)
      modifies this`trie, this`codes
      ensures RepOk(trie, codes, cache, nonExisting)
      ensures forall a :: WrittenBack(old(trie), cache, cache.Keys, trie, a)
    {
      var todo := cache.Keys;
      while todo != {}
        invariant todo <= cache.Keys
        invariant RepOk(trie, codes, cache, nonExisting)
        invariant forall b :: WrittenBack(old(trie), cache, cache.Keys - todo, trie, b)
        decreases todo
      {
        var a :| a in todo;
        ghost var before := trie;
        WriteOne(a);
        forall b
          ensures WrittenBack(old(trie), cache, cache.Keys - (todo - {a}), trie, b)
        {
          assert WrittenBack(before, cache, {a}, trie, b);
          assert WrittenBack(old(trie), cache, cache.Keys - todo, before, b);
        }
        todo := todo - {a};
      }
      assert cache.Keys - todo == cache.Keys;
    }

    /** The trie becomes the world that was seen, less the dead accounts and, if asked, the dirty empty ones. */
    method Commit(removeEmpty: bool)
      requires Valid()
      modifies this
      ensures Open() && Abs() == Journal.Commit(old(Abs()), removeEmpty)
    {
      assert CleanAgrees(Abs()) by {
        if !closing { UndoableParts(Abs()); }
      }
      RepWithoutEmpty(trie, codes, cache, nonExisting);
      if removeEmpty {
        RemoveEmptyAccounts();
      }
      WriteBack();
      CommittedWorld(old(trie), old(cache), removeEmpty, trie, old(Abs()));
      Forget();
    }

    method Forget()
      requires RepOk(trie, codes, cache, nonExisting)
      modifies this`cache, this`evictable, this`changeLog, this`closing
      ensures Open() && Abs() == World(TrieAccounts(trie), {}, [], TrieAccounts(trie), startNonce)
    {
      SeenUncached(trie, startNonce);
      RepUncached(trie, codes, cache, nonExisting);
      changeLog := [];
      cache := map[];
      evictable := [];
      closing := false;
    }
  }
}
