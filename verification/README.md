# A model of the node's core in Dafny

This project models the parts of the client in which state is changed under invariants that cross many functions, and
proves those invariants over every input and every run:

- the world state with its write-back cache and undo journal (`Journal`, `WorldLaws`, `JournalUndo`, `StateCache`), and
  the executive that runs transactions in nested frames on it (`Ether`, `Frames`, `FrameProofs`, `FrameLaws`,
  `Transactions`, `TransactionProofs`, `TransactionLaws` on plain values; `Executive`, `TransactionRun` as objects that
  change the cached state and are proved to do the same);
- the block tree, the choice of the head, the number index and the two-level bloom index (`BlockTree`, `BloomIndex`,
  `ChainIndex`), with what is recorded of each block (`ChainRecords`);
- the block queue, in which threads verify in parallel and blocks leave in order (`QueueOrder`, `BlockQueue`);
- the transaction queue with its three linked indexes and the future set (`TxIndexes`, `TransactionQueue`);
- building a block and enacting it, uncles, rewards, the ether supply over many blocks and the header rules (`Uncles`,
  `BlockBuild`, `BlockEther`, `Ethash`);
- the run-length maps of block synchronisation (`SyncRanges`).

Code that changes things in place is a class here, with a `Valid` predicate that its methods keep, and where the code may
lose it the contract says when: the methods' steps in any order are the runs of the system. Each class ties its state to a plain value, and the hard facts are lemmas about
those values; the `Laws` modules say of them what a client reads before and after. `dafny verify dfyconfig.toml` checks
everything.

Where the code disagrees with its documentation, or does something that a reader may not expect, the model follows the
code:

- `libaecereum/BlockChain.h:262-269` lists routes and indexes for `treeRoute` that `libaecereum/BlockChain.cpp:1124-1142` does not produce: its
  routes show an ancestor that was not asked for; and when the ancestor and the first half are asked for and the second
  half is empty the code's index is one more than the listed one: `BlockTree.IndexOfParent`.
- `libaecereum/Executive.cpp:375` treats an address with a nonzero nonce as used, and an address that does not exist has the start
  nonce; with a start nonce other than zero no contract can be created at an address that does not exist yet, only at an
  existing account without nonce and code.
- `libaecereum/TransactionQueue.cpp:190-200` adds one on 256 bits, so the largest nonce makes the next one zero:
  `TransactionQueue.NonceAfterLargest`.
- `libaecereum/BlockChain.cpp:1295` adds on 32 bits, so a search that ends within the last 255 block numbers finds nothing beyond
  the first 256 blocks: `BloomIndex.LostMatch`.  Any other search goes on to the end of the next 256 blocks, unless it ends
  at a multiple of 256.
- `libaecereum/BlockQueue.h:113-118` returns what `std::remove_if` leaves behind, which is not specified, and not the removed blocks;
  `updateBad` takes it for those and so may note the wrong blocks as bad. The model returns arbitrary values there.
- `libaecashseal/Ethash.cpp:182-191` lets a full parent at the maximal gas limit have a child above it: `Ethash.FullParentHasNoRoom`.
- `libaecereum/BlockChain.cpp:1280-1292` does not forget cached numbers above the head, so a number that was looked up there can be
  stale later: `ChainIndex.StaleNumber` shows how, and `ChainIndex.StaleExactly` when.
- `libaecereum/Executive.cpp:292-307` touches a precompiled contract that cannot be paid for after the savepoint of its own call, so that
  failed call leaves an account behind if there was none: `FrameProofs.UnpaidPrecompileLeavesAccount`.
- `libaecashseal/Ethash.cpp:209-211` adds on 256 bits before Homestead, so close to the largest difficulty a later timestamp can raise
  it: `Ethash.WrappedDifficultyRises`.

## Model

| member | source | states |
|---|---|---|
| `JournalUndo.RollbackRestores` | libaecereum/State.cpp:561-602 | For every legal run of State mutations after a savepoint, rolling back restores existence, balance, nonce, code and storage of every account; balances are undone modulo 2^256 |
| `JournalUndo.RunReverts` | libaecereum/State.cpp:328-462 | Every legal run of mutations leaves a world whose log can be undone, back to exactly the accounts it started from |
| `JournalUndo.AddBalanceReverts` | libaecereum/State.cpp:354-377 | Undoing the entries that addBalance logs (touch, amount, creation) gives back the accounts, wrap-around or not |
| `JournalUndo.SetStorageReverts` | libaecereum/State.cpp:449-453 | Undoing a storage write puts the prior slot value back |
| `JournalUndo.ClearStorageReverts` | libaecereum/State.cpp:455-462 | Undoing clearStorage gives the storage back when the overlay agrees with the base trie |
| `JournalUndo.ClearStorageExact` | libaecereum/State.cpp:455-462 | Rolling back a clearStorage restores the storage if and only if the account is untouched or had no base storage: the condition the callers rely on |
| `JournalUndo.SetCodeReverts` | libaecereum/State.cpp:526-530 | Undoing setCode restores the prior code of an account that was already dirty |
| `JournalUndo.RollbackTwice` | libaecereum/State.cpp:566-602 | Rolling back to an inner savepoint and then to an outer one is rolling back to the outer one: nested frames revert independently |
| `JournalUndo.RollbackUndoesTouches` | libaecereum/State.cpp:595-598 | After a rollback the accounts that removeEmptyAccounts would kill are those of the savepoint, if and only if every clean empty account that was marked dirty since was first marked by addBalance |
| `JournalUndo.UnmarksIsSameDirt` | libaecereum/State.cpp:595-598 | The same for any two worlds of which the later rolls back to the earlier: those accounts are the same if and only if no clean empty account of the earlier is left dirty |
| `JournalUndo.UnmarksTrans` | libaecereum/State.cpp:354-377 | That property composes, although a rollback in between may leave other accounts marked dirty |
| `JournalUndo.DirtAfterRollback` | libaecereum/State.cpp:354-377 | Which accounts are left dirty by a rollback, account by account |
| `StateCache.State.EvictOne` | libaecereum/State.cpp:192-209 | Evicting a random clean entry changes nothing that a query can see |
| `StateCache.State.ClearCacheIfTooLarge` | libaecereum/State.cpp:192-209 | However many entries are evicted, the world seen is the same |
| `StateCache.State.Find` | libaecereum/State.cpp:163-190 | A lookup fills the cache or the set of known absent accounts and changes no answer; it finds an account exactly when it exists |
| `StateCache.State.CreateAccount` | libaecereum/State.cpp:407-413 | A new account is cached dirty, no longer listed as absent, and logged |
| `StateCache.State.IncNonce` | libaecereum/State.cpp:328-339 | The nonce that is read goes up by one on 256 bits, from the start nonce for a new account, and nothing else is read differently; the log is that of the plain world |
| `StateCache.State.SetNonce` | libaecereum/State.cpp:341-352 | The nonce that is read is the one set and nothing else is read differently; the log is that of the plain world |
| `StateCache.State.AddBalance` | libaecereum/State.cpp:354-377 | The balance that is read goes up by the amount on 256 bits and nothing else is read differently; the log, with its touch entry, is that of the plain world |
| `StateCache.State.SubBalance` | libaecereum/State.cpp:379-391 | NotEnoughCash exactly when the balance is short, and then no change; otherwise the balance goes down by the amount and nothing else is read differently |
| `StateCache.State.SetBalance` | libaecereum/State.cpp:393-400 | The balance that is read is the one set, and nothing else is read differently |
| `StateCache.State.TransferBalance` | libaecereum/State.h:257 | The amount leaves one balance and enters the other, or nothing changes; a transfer to oneself changes nothing that is read |
| `StateCache.State.Balance` | libaecereum/State.cpp:320-326 | Answers from the world, whatever is cached |
| `StateCache.State.GetNonce` | libaecereum/State.cpp:422-428 | Answers from the world, the start nonce for accounts that do not exist |
| `StateCache.State.Storage` | libaecereum/State.cpp:430-447 | A read through overlay and trie, memoised in the overlay, answers from the world and changes nothing |
| `StateCache.State.Code` | libaecereum/State.cpp:509-524 | Code loaded on demand answers from the world and changes nothing |
| `StateCache.State.SetStorage` | libaecereum/State.cpp:449-453 | The slot reads what was written; every other slot and every other field reads as before; the prior value is logged |
| `StateCache.State.ClearStorage` | libaecereum/State.cpp:455-462 | Every slot of an account with base storage reads zero, and nothing else is read differently; without base storage nothing happens |
| `StateCache.State.SetCode` | libaecereum/State.cpp:526-530 | The code that is read is the one set and nothing else is read differently, for an account that is already dirty |
| `StateCache.State.Kill` | libaecereum/State.cpp:415-420 | A killed account is dead, without balance, nonce, code and storage; the others are as they were |
| `StateCache.State.Rollback` | libaecereum/State.cpp:566-602 | The popping loop on the cache is rollback on the plain world |
| `StateCache.State.RemoveEmptyAccounts` | libaecereum/State.cpp:136-141 | Exactly the dirty empty cached accounts are killed |
| `StateCache.State.Commit` | libaecereum/State.cpp:211-219 | Afterwards the trie is the world seen before, less dead accounts and, when asked, dirty empty ones; the cache and the log are gone |
| `StateCache.State.WriteBack` | libaecereum/State.cpp:750-797 | The trie is written account by account from the dirty cache entries |
| `WorldLaws.TransferSeen` | libaecereum/State.h:257 | What leaves one balance enters the other and nothing else is read differently, to oneself too |
| `WorldLaws.CommitSeen` | libaecereum/State.cpp:211-219 | An account is left exactly if it is alive and not, where asked, dirty and empty; everything read of it is as before, and the trie is what is left |
| `Ether.TransferTotal` | libaecereum/State.h:257 | A transfer, even to oneself, conserves the sum of all balances |
| `Ether.BequeathTotal` | libaecereum/ExtVM.cpp:167-176 | A suicide conserves the sum of all balances, except that one naming itself as heir destroys its own |
| `FrameLaws.BequeathSeen` | libaecereum/ExtVM.cpp:167-176 | The whole balance is with the heir afterwards, or gone if the account is its own heir; no other balance, nonce, code or slot is read differently |
| `FrameProofs.ExecSound` | libaecereum/Executive.cpp:424-482 | For every script with any tree of nested frames: all contracts of the State operations are met, gas never grows, ether is conserved but for burned suicides, and everything can be taken back, which accounts are to be removed as empty included |
| `FrameProofs.CallSound` | libaecereum/Executive.cpp:278-341 | A call keeps all of that; if it fails it has no substate, and no gas unless it reverted; it leaves the accounts of its own savepoint if and only if it is not an unpaid call, from EIP-158 on, of a precompiled contract without an account; and the accounts that removeEmptyAccounts would kill are those of the savepoint and that contract if it is empty |
| `FrameProofs.CreateSound` | libaecereum/Executive.cpp:362-401 | The same for a creation, from its savepoint after the nonce bump |
| `FrameProofs.FailedCallLeavesNoTrace` | libaecereum/ExtVM.cpp:126-137 | A failed call adds nothing to logs, suicides or refunds, and gives its caller back the accounts it had if and only if it is not an unpaid call, from EIP-158 on, of a precompiled contract without an account; the accounts to be removed as empty are the same but for that contract if it is empty |
| `FrameProofs.UnpaidPrecompileLeavesAccount` | libaecereum/Executive.cpp:292-307 | A call of such a contract with 599 of the 600 gas it costs fails and leaves an empty account, which is to be removed |
| `FrameProofs.FailedCreateLeavesNonce` | libaecereum/ExtVM.cpp:149-165 | A failed creation leaves the bumped nonce of the creator and nothing else, and no more accounts to be removed as empty |
| `FrameProofs.UnwindSteps` | libaecereum/Executive.cpp:555-563 | A reverted frame is back at the accounts of its savepoint, and at the same accounts to be removed as empty |
| `FrameProofs.StartNonceForbidsCreation` | libaecereum/Executive.cpp:374-375 | A creation at an address that does not exist fails as already used if and only if the start nonce is not zero |
| `FrameLaws.CallKeeps` | libaecereum/Executive.cpp:424-482 | Whatever its script, a call of code starts with the value paid; if it returns it keeps the world, gas, logs, refunds and suicides that its last effect left, if it reverts its gas, and if it faults nothing |
| `FrameLaws.CallSeen` | libaecereum/Executive.cpp:278-341 | After a call whose code spends, stores, logs and refunds, every slot reads the last value written to it, the logs and the credits are in the substate, the value is with the receiver, the gas is what was not spent; reverted, faulted or out of gas it is told so, and nothing else is read differently |
| `FrameLaws.StoredByCall` | libaecereum/Executive.cpp:431-469 | A slot stored by a call that returns reads the value stored |
| `FrameLaws.PlainRun` | libaecereum/Executive.cpp:424-469 | A script without nested frames has all its effects in order and ends as it says if and only if its cost can be paid |
| `FrameLaws.CallWithoutCode` | libaecereum/Executive.cpp:324-341 | The value is moved and no gas used |
| `FrameLaws.PrecompiledSeen` | libaecereum/Executive.cpp:292-322 | Paid and successful: the cost is taken and the value moved; otherwise all gas is taken and the value stays |
| `FrameLaws.CreateKeeps` | libaecereum/Executive.cpp:435-466 | Whatever its script, a creation starts with the endowment, the first nonce and no base storage; if it returns, its output is deployed and paid for, dropped if it cannot be paid for, or the creation fails, by the rules in force |
| `FrameLaws.CreateSeen` | libaecereum/Executive.cpp:362-466 | After a creation whose code spends, stores, logs and refunds, the new account has the code returned, the endowment, the first nonce and the slots written |
| `FrameLaws.NestedCall` | libaecereum/ExtVM.cpp:126-137 | What each kind of call pays, sends, to whom and on whose behalf; it is made if the value is there and the depth below 1024; the callee's gas, logs, refunds and suicides are added to the caller's |
| `FrameLaws.NestedCreate` | libaecereum/ExtVM.cpp:149-165 | The same for a creation |
| `FrameLaws.CreatorBumped` | libaecereum/Executive.cpp:362-372 | The nonce of the creator goes up by one before the savepoint, but for the pseudo sender from Constantinople on |
| `FrameLaws.SuicideSeen` | libaecereum/ExtVM.cpp:167-176 | The balance is with the heir and the account is listed |
| `Executive.Executive.Call` | libaecereum/Executive.cpp:278-341 | The executive on the cached State does what the frame function says: world, gas, substate and exception |
| `Executive.Executive.Create` | libaecereum/Executive.cpp:362-401 | The same for a creation, nonce bump included |
| `Executive.Executive.RunCode` | libaecereum/Executive.cpp:424-515 | Code is run and concluded at the savepoint as the frame function says |
| `Executive.Executive.RunInit` | libaecereum/Executive.cpp:435-466 | Initialisation code on cleared storage, with the deposit of the code it returns |
| `Executive.Executive.DepositCode` | libaecereum/Executive.cpp:444-465 | Code that is too big or cannot be paid for fails or is dropped, by the rules in force; otherwise it is charged for and deployed |
| `Executive.Executive.Conclude` | libaecereum/Executive.cpp:470-482 | A frame that returned keeps its world, gas and substate; revert keeps the gas, a fault takes it; both roll the State back and clear the substate |
| `Executive.Executive.Precompiled` | libaecereum/Executive.cpp:292-322 | Out of gas touches the contract from EIP-158 on; failure takes all gas; success pays |
| `Executive.Executive.ExtCall` | libaecereum/ExtVM.cpp:126-137 | A nested call on the shared State, with its gas and substate accrued to the caller |
| `Executive.Executive.ExtCreate` | libaecereum/ExtVM.cpp:149-165 | A nested creation on the shared State |
| `Executive.Executive.Suicide` | libaecereum/ExtVM.cpp:167-176 | Balance to the heir, then zero, and the account listed |
| `Executive.Executive.Go` | libaecereum/Executive.cpp:424-482 | Running a script on the cached State is running it on the plain world |
| `TransactionProofs.TxConserves` | libaecereum/Executive.cpp:256-270 | Total balance after finalize plus what suicides destroyed equals total before; gas used is at most the limit, and the refund at most half of the consumption |
| `TransactionProofs.GasIsSettled` | libaecereum/Executive.cpp:528-534 | The gas bought equals what is returned to the sender plus the fees of the author |
| `TransactionProofs.FailedTx` | libaecereum/Executive.cpp:517-526 | A transaction whose outermost frame failed has no logs, no refund and destroys nothing |
| `TransactionProofs.BlockConserves` | libaecereum/State.cpp:623-642 | For every sequence of transactions in a block, cumulative gas strictly increases and stays within the block gas limit, and ether is conserved but for what was destroyed |
| `TransactionProofs.AcceptedPays` | libaecereum/Executive.cpp:240-252 | An accepted transaction can pay for its gas and then for its value, without overflow |
| `TransactionProofs.CommitSound` | libaecereum/State.cpp:211-219 | Committing destroys no ether and leaves a world on which frames can run |
| `TransactionLaws.AcceptedIs` | libaecereum/Executive.cpp:204-254 | A transaction is accepted if and only if its signature is allowed, its gas covers the intrinsic gas and fits the block, its nonce is that of the sender, and the balance covers gas and value |
| `TransactionLaws.RefusedFor` | libaecereum/Executive.cpp:204-254 | The reason given for a refusal holds |
| `TransactionLaws.RefundIs` | libaecereum/Executive.cpp:517-526 | The refund is the sum of the credits, one more for each suicide, on 256 bits, up to half of the gas consumed |
| `TransactionLaws.SettlePays` | libaecereum/Executive.cpp:528-534 | The sender gets the gas left at its price and the author the gas used, both if they are the same, and no other balance changes |
| `TransactionLaws.FinalizePays` | libaecereum/Executive.cpp:517-539 | The same at the end of the transaction for every account that is not a suicide; suicides are left with nothing |
| `TransactionLaws.AcceptedTx` | libaecereum/State.cpp:604-644 | Every accepted transaction from the first payment to the end: what the sender pays, with how much gas the one outermost frame runs and for whom, what is refunded and who is paid what |
| `TransactionLaws.TransferTx` | libaecereum/State.cpp:604-644 | A transaction to an account without code uses the intrinsic gas; value and fee are where they belong, whichever of sender, receiver and author are the same |
| `TransactionLaws.RunOneMore` | libaecereum/State.cpp:623-642 | One more transaction runs on the world and the gas that the others left, is committed and adds one receipt, or is refused without a trace |
| `TransactionRun.Initialize` | libaecereum/Executive.cpp:204-254 | The checks in their order, against the cached State |
| `TransactionRun.Run` | libaecereum/Executive.cpp:256-270 | The outermost frame of a transaction on the cached State |
| `TransactionRun.ProcessSuicides` | libaecereum/Executive.cpp:536-539 | All suicides are killed and nothing else changes |
| `TransactionRun.FinalizeTx` | libaecereum/Executive.cpp:517-539 | Refund, fees and suicides on the cached State, as specified |
| `TransactionRun.Execute` | libaecereum/State.cpp:604-644 | A refused transaction leaves no trace; an accepted one leaves the cached State showing exactly the specified world, committed |
| `BlockTree.TreeRoute` | libaecereum/BlockChain.cpp:1092-1143 | Terminates with the lowest common ancestor and the path down and up for every combination of flags; the index is right, or one more exactly when the ancestor and the first part are asked for and the second part is not, or the second block is an ancestor of the first |
| `BlockTree.IndexOfParent` | libaecereum/BlockChain.cpp:1124-1142 | From a block to its parent with everything asked for, the ancestor stands at 1 in the route and the index is 2 |
| `BlockTree.RouteAt` | libaecereum/BlockChain.cpp:1124-1142 | Which block stands where in the route, for every combination of flags |
| `BlockTree.LowestHere` | libaecereum/BlockChain.cpp:1124-1136 | Where two branches meet first on the way down is their lowest common ancestor |
| `BlockTree.LowestIsUnique` | libaecereum/BlockChain.cpp:1092-1143 | There is only one |
| `BloomIndex.ChunkIdInjective` | libaecereum/BlockChain.h:318 | Chunk ids of the two levels never collide for 32-bit block numbers, in 32-bit arithmetic |
| `BloomIndex.Index.Note` | libaecereum/BlockChain.cpp:817-835 | Both levels cover the new canonical block, in memory and in the database |
| `BloomIndex.Index.ClearBlockBlooms` | libaecereum/BlockChain.cpp:975-1015 | Blanking level 0 and rebuilding level 1 leaves all lower blocks covered and shows nothing of the removed ones |
| `BloomIndex.Index.WithBlockBloom` | libaecereum/BlockChain.cpp:1310-1362 | Ascending; a canonical match n between earliest and latest is returned if and only if latest <= 2^32 - 256 or n < 256; of all canonical matches from earliest on exactly those that the search reaches are returned, and while the index is exact and the query is not empty nothing else is |
| `BloomIndex.TriedIs` | libaecereum/BlockChain.cpp:1295-1362 | The chunk numbers and the tests at both ends let through exactly the numbers from earliest on up to latest, and those of the next 256 blocks unless latest is a multiple of 256, or the first 256 only when the end wraps around |
| `BloomIndex.LostMatch` | libaecereum/BlockChain.cpp:1295 | Block 256 matches within 0 to 2^32 - 1 and is not returned |
| `BloomIndex.NoteKeeps` | libaecereum/BlockChain.cpp:817-835 | Adding a block keeps coverage and exactness |
| `BloomIndex.ClearKeeps` | libaecereum/BlockChain.cpp:975-1015 | Clearing keeps coverage of what remains, and exactness |
| `ChainIndex.BlockChain.Import` | libaecereum/BlockChain.cpp:626-707 | Refusals leave everything unchanged; otherwise the new block is the head if and only if its total difficulty is above that of the old head, or gas breaks ties, the difficulties are equal and it used more; every change of head goes up in (total difficulty, gas used), and unless the head was moved back no stored block is above it; dead is exactly the old chain less the new, from the old head down, and live exactly the new less the old, upwards; all indexes stay coherent, and a right cache stays right if and only if what it holds above the old head agrees with the new index |
| `ChainIndex.BlockChain.Reorganise` | libaecereum/BlockChain.cpp:788-862 | The number index names the ancestor of the new head at every height |
| `ChainIndex.SplitRoute` | libaecereum/BlockChain.cpp:956-973 | The route is split at the common ancestor into dead and live blocks |
| `ChainIndex.BlockChain.ClearCachesDuringChainReversion` | libaecereum/BlockChain.cpp:1280-1292 | Cached numbers and blooms of the reverted heights are gone, others are kept |
| `ChainIndex.BlockChain.NumberHash` | libaecereum/BlockChain.h:184 | Up to the head the answer is the canonical block if and only if what is cached for that height, if anything, is not stale; looking up makes no entry stale |
| `ChainIndex.AnswerExactly` | libaecereum/BlockChain.h:184 | The same as a fact about coherent states: an answer is wrong exactly when it comes from a stale entry |
| `ChainIndex.BlockChain.Rewind` | libaecereum/BlockChain.cpp:1067-1090 | The whole new state, stale entry or not; the head is the ancestor at the given height, and every index coherent, if and only if the cached entry of that height is not stale; a cache that is right up to the head stays so |
| `ChainIndex.StaleExactly` | libaecereum/BlockChain.cpp:788-862 | For any move of the head along any route: cached numbers that named the ancestors of the old head name those of the new one if and only if every number cached between the two heights, above the old head, is the block of the new path |
| `ChainIndex.RightNamesAncestors` | libaecereum/BlockChain.h:184 | In a coherent state the cache agrees with the number index up to the head if and only if it names the ancestors of the head |
| `ChainIndex.StaleNumber` | libaecereum/BlockChain.cpp:1280-1292 | From the genesis with an empty cache: import a block, rewind to the genesis, look up height 1, import another block; height 1 is then answered with the first block, which is not the canonical one |
| `ChainIndex.BlockChain.WithBlockBloom` | libaecereum/BlockChain.cpp:1310-1323 | After any history of imports, reorganisations, rewinds and evictions a canonical match n in the range is returned if and only if latest <= 2^32 - 256 or n < 256; nothing beyond what the search reaches is returned, and only matches unless blooms were evicted |
| `ChainIndex.BestKeeps` | libaecereum/BlockChain.cpp:790-862 | When a block that beats the head becomes the head, it is a maximum of all stored blocks and every index is coherent |
| `ChainIndex.NotBestKeeps` | libaecereum/BlockChain.cpp:790-870 | A block that does not beat the head leaves it a maximum |
| `ChainIndex.TotalDifficultyIsSum` | libaecereum/BlockChain.cpp:682 | Total difficulty is the sum of difficulties along the ancestry, modulo 2^256 |
| `ChainIndex.SwitchDeadAndFresh` | libaecereum/BlockChain.cpp:962-973 | Membership in the two halves of the route, as sets of canonical blocks |
| `ChainRecords.FiledKeeps` | libaecereum/BlockChain.cpp:757-772 | Storing a block that follows its parent in number and time and filing it among the children of its parent keeps what is recorded of all blocks right |
| `ChainRecords.RecordedChain.Import` | libaecereum/BlockChain.cpp:626-707 | From the genesis on, importing keeps the records right together with all indexes, so that what is proved of uncles and blocks holds on every reachable chain; the new block is recorded with the uncles it cites and is the last child of its parent, every stored block is among the children of its parent, and no other record changes; a block no later than its parent is refused |
| `BlockQueue.BlockQueue.Import` | libaecereum/BlockQueue.cpp:168-258 | Each outcome and its new state; an accepted block goes to the end of the pipeline, and of the waiting blocks exactly those join it whose parent is then ready; a block with a bad parent is bad, exactly the waiting blocks whose parent is then bad become bad, of the queued blocks exactly those stay that are not bad and have no bad parent, and all invariants hold and no block is removed if and only if no queued block has a bad or condemned parent |
| `BlockQueue.BlockQueue.Take` | libaecereum/BlockQueue.cpp:90-101 | A block moves to verifying; the order is unchanged |
| `BlockQueue.BlockQueue.FinishGood` | libaecereum/BlockQueue.cpp:123-147 | The pipeline keeps its order and loses only blocks noted as bad, each with a bad parent |
| `BlockQueue.BlockQueue.FinishBad` | libaecereum/BlockQueue.cpp:109-121 | The same, starting from the block that failed |
| `BlockQueue.BlockQueue.DrainVerified` | libaecereum/BlockQueue.cpp:153-166 | Afterwards the front of verifying is unfinished |
| `BlockQueue.BlockQueue.FindSlot` | libaecereum/BlockQueue.h:120-131 | The first slot with the hash in its uncles field |
| `BlockQueue.BlockQueue.Drain` | libaecereum/BlockQueue.cpp:426-451 | The drained blocks are the first of the pipeline, and each one has its parent in the chain or earlier among them |
| `BlockQueue.BlockQueue.DoneDrain` | libaecereum/BlockQueue.cpp:326-341 | Nothing is draining any more and the drained blocks that were bad are noted; queued blocks that are bad or have a bad parent go, with what waits for them; all invariants hold, and nothing else changes, if no queued block has a bad parent, and otherwise blocks are removed |
| `BlockQueue.BlockQueue.UpdateBad` | libaecereum/BlockQueue.cpp:260-308 | Whatever the removals return: the rounds terminate, and afterwards no queued block is bad or has a bad parent and none waits for a bad one; if the first round finds nothing the state is that of the condemnation alone |
| `BlockQueue.GoodInOrder` | libaecereum/BlockQueue.h:112-118 | What a removal leaves is in order, and is exactly what is not bad |
| `BlockQueue.PurgedPipeline` | libaecereum/BlockQueue.cpp:266-306 | The queues are unchanged if and only if the first round finds nothing to remove |
| `BlockQueue.DrainedKeeps` | libaecereum/BlockQueue.cpp:326-341 | If every drained block is in the chain or bad and no queued block has a bad parent, the order and the sets are kept, and no block waits for a bad one |
| `BlockQueue.BlockQueue.NoteReadyWithLock` | libaecereum/BlockQueue.cpp:465-487 | The work list promotes exactly the descendants that wait |
| `BlockQueue.BlockQueue.CollectUnknownBad` | libaecereum/BlockQueue.cpp:310-324 | The work list is the recursive condemnation of the waiting descendants |
| `BlockQueue.CondemnBlames` | libaecereum/BlockQueue.cpp:310-324 | Every block that condemnation takes out of the waiting ones is bad and has a bad parent |
| `BlockQueue.BlockQueue.NoteReady` | libaecereum/BlockQueue.h:243 | No block is left waiting for a ready parent, and none is lost |
| `BlockQueue.ReadySettled` | libaecereum/BlockQueue.cpp:465-487 | Promotion does not stop before every block with a known parent is promoted |
| `BlockQueue.ReadyBlames` | libaecereum/BlockQueue.cpp:465-487 | Every block that promotion takes out of the waiting ones is ready and has a ready parent |
| `BlockQueue.ReadyLined` | libaecereum/BlockQueue.cpp:465-487 | Promotion keeps the sets and the order |
| `BlockQueue.BadParent` | libaecereum/BlockQueue.cpp:226-232 | When a block with a bad parent arrives, condemning it and what waits for it keeps all invariants, and the removal finds something if and only if a queued block has a bad or condemned parent |
| `QueueOrder.ReadyCount` | libaecereum/BlockQueue.cpp:453-463 | As many ready hashes as there are blocks in the three queues |
| `QueueOrder.FrontIsStaffed` | libaecereum/BlockQueue.cpp:127-147 | Some thread is at work on the front of verifying, so no finished block is stuck |
| `QueueOrder.AdvanceKeeps` | libaecereum/BlockQueue.cpp:153-166 | Moving the front on keeps the order, whether it passes or is dropped |
| `QueueOrder.RejectedKeeps` | libaecereum/BlockQueue.cpp:109-121 | Dropping a bad block anywhere in verifying keeps the order |
| `QueueOrder.DrainKeeps` | libaecereum/BlockQueue.cpp:426-451 | What leaves is in order with respect to the chain |
| `QueueOrder.KeptOrdered` | libaecereum/BlockQueue.cpp:153-166 | After bad blocks are dropped every remaining parent is in the chain, draining, earlier or bad |
| `QueueOrder.KeptInOrder` | libaecereum/BlockQueue.cpp:153-166 | What is kept is in order, and is exactly what is not bad |
| `TransactionQueue.TransactionQueue.Import` | libaecereum/TransactionQueue.cpp:68-100 | Every refusal and its reason; success means both limits hold, a slot only changed hands for at least the same price, current transactions were lost only at the current limit and future ones only at the future limit |
| `TransactionQueue.TransactionQueue.ManageImport` | libaecereum/TransactionQueue.cpp:118-182 | Overbid exactly when the slot is held at a higher price, and then no change |
| `TransactionQueue.TransactionQueue.Vacate` | libaecereum/TransactionQueue.cpp:125-158 | The slot is freed in whichever index holds it |
| `TransactionQueue.TransactionQueue.InsertCurrent` | libaecereum/TransactionQueue.cpp:202-220 | The transaction is current and its followers are promoted |
| `TransactionQueue.TransactionQueue.RemoveWithLock` | libaecereum/TransactionQueue.cpp:222-238 | A current transaction leaves all three indexes and the known set |
| `TransactionQueue.TransactionQueue.MakeCurrent` | libaecereum/TransactionQueue.cpp:279-321 | Exactly the unbroken run of followers becomes current; then the future limit holds |
| `TransactionQueue.TransactionQueue.TrimFuture` | libaecereum/TransactionQueue.cpp:307-317 | Terminates; future transactions go from the ends of the chains only, and only if the limit is exceeded |
| `TransactionQueue.TransactionQueue.EnforceLimit` | libaecereum/TransactionQueue.cpp:162-166 | Terminates with exactly as many as the limit allows, and removes only if it is exceeded |
| `TransactionQueue.TransactionQueue.SetFuture` | libaecereum/TransactionQueue.cpp:253-277 | Exactly the transactions of the sender from that nonce on become future, and no price in any slot changes |
| `TransactionQueue.TransactionQueue.Drop` | libaecereum/TransactionQueue.cpp:323-333 | At most the slot of the transaction is emptied, and it is remembered as dropped |
| `TransactionQueue.TransactionQueue.DropGood` | libaecereum/TransactionQueue.cpp:335-342 | Followers are promoted, the transaction is gone, and nothing else is lost below the future limit |
| `TransactionQueue.TransactionQueue.MaxNonce` | libaecereum/TransactionQueue.cpp:184-200 | One above the largest queued nonce, exactly when that is not 2^256 - 1 |
| `TransactionQueue.NonceAfterLargest` | libaecereum/TransactionQueue.cpp:184-200 | In a queue that holds one transaction with nonce 2^256 - 1 the next nonce is 0 |
| `TransactionQueue.IndexesAgree` | libaecereum/TransactionQueue.cpp:202-342 | In every reachable state the three indexes hold the same transactions, none also future, all known |
| `TransactionQueue.WantedPrices` | libaecereum/TransactionQueue.cpp:125-158 | An import never lowers the price of an occupied slot |
| `TxIndexes.PromoteRunAt` | libaecereum/TransactionQueue.cpp:279-305 | Promotion loses no transaction |
| `TxIndexes.PromoteRunFuture` | libaecereum/TransactionQueue.cpp:279-305 | Promotion moves exactly the run |
| `TxIndexes.MoveDownAt` | libaecereum/TransactionQueue.cpp:266-273 | Demotion keeps every slot and the count of future transactions |
| `Uncles.AllKinFrom` | libaecereum/BlockChain.cpp:1364-1378 | The loop collects the kin of six generations |
| `Uncles.KinAboveIs` | libaecereum/BlockChain.cpp:1364-1378 | A block is kin if and only if it is one of the ancestors of that many generations or is cited as an uncle by one of those generations |
| `Uncles.EnactUncles` | libaecereum/Block.cpp:537-623 | The first failing check decides, for every list of uncles |
| `Uncles.CheckEachMeans` | libaecereum/Block.cpp:553-623 | Accepted if and only if the uncles are distinct, not kin, and each is a valid child of an ancestor one to six generations back |
| `Uncles.UncleRefusedFor` | libaecereum/Block.cpp:553-623 | The reason given for refusing an uncle holds |
| `Uncles.PickUncles` | libaecereum/Block.cpp:744-766 | At most two distinct candidates, fewer only when there are no more |
| `Uncles.PickedPass` | libaecereum/Block.cpp:744-766 | Every list of uncles that is picked passes all checks of enact |
| `BlockBuild.ApplyRewards` | libaecereum/Block.cpp:679-688 | The loop pays uncles and author as specified |
| `BlockBuild.RewardsMint` | libaecereum/Block.cpp:679-688 | Rewards mint exactly the sum that section 11.3 of the Yellow Paper prescribes, whoever shares an account |
| `BlockBuild.RewardsPaid` | libaecereum/Block.cpp:679-688 | The author of each uncle gets that uncle's reward, the author of the block its own with a thirty-second for each uncle, added up where they are the same, and nobody else gets anything |
| `BlockBuild.UncleRewardExact` | libaecereum/Block.cpp:679-688 | For an uncle of one to six generations back nothing wraps around in the code's reward, which is what is due |
| `BlockBuild.UncleDueIs` | libaecereum/Block.cpp:682-684 | What is due is the block's reward times 8 plus the uncle's number less the block's, divided by 8 |
| `BlockBuild.Block.Execute` | libaecereum/Block.cpp:657-677 | Transactions accumulate in order on the uncommitted state |
| `BlockBuild.Block.CommitToSeal` | libaecereum/Block.cpp:728-821 | However often it is repeated, the state is the transactions in order with the rewards applied once |
| `BlockBuild.Block.UncommitToSeal` | libaecereum/Block.cpp:823-830 | The rewards are taken back |
| `BlockBuild.Block.SealBlock` | libaecereum/Block.cpp:832-858 | Only a committed block is sealed, and its state is then without rewards |
| `BlockBuild.Enact` | libaecereum/Block.cpp:464-655 | Refused transactions and uncles are reported; otherwise the state is the transactions in order and the rewards once |
| `BlockBuild.EnactCommitted` | libaecereum/Block.cpp:728-821 | What commitToSeal produced is accepted by enact, with the same state and gas |
| `BlockBuild.ApplyIsRunAll` | libaecereum/Block.cpp:657-677 | Building with the executive is running the transactions one after the other |
| `BlockEther.EnactedConserves` | libaecereum/Block.cpp:464-655 | For every block that enact accepts, whatever its transactions do: the sum of all balances afterwards plus what suicides destroyed is the sum before plus the rewards of author and uncles |
| `BlockEther.SupplyOverBlocks` | libaecereum/Block.cpp:464-655 | The same over any number of blocks, one after the other |
| `SyncRanges.RangeMap.HaveItem` | libaecereum/BlockChainSync.cpp:57-68 | Whether the plain map has the number |
| `SyncRanges.RangeMap.FindItem` | libaecereum/BlockChainSync.cpp:70-83 | What the plain map holds there |
| `SyncRanges.RangeMap.RemoveItem` | libaecereum/BlockChainSync.cpp:85-100 | Removes the number and the contiguous run after it, and nothing else |
| `SyncRanges.RangeMap.RemoveAllStartingWith` | libaecereum/BlockChainSync.cpp:102-121 | Removes exactly the numbers from there on |
| `SyncRanges.RangeMap.MergeInto` | libaecereum/BlockChainSync.cpp:123-156 | Adds exactly one entry; runs stay non-empty, disjoint and maximal |
| `SyncRanges.RunStartsAfterGap` | libaecereum/BlockChainSync.cpp:543-549 | When n is missing and n + 1 is not, a run starts at n + 1, so at(n + 1) is safe |
| `SyncRanges.RequestHeaders` | libaecereum/BlockChainSync.cpp:347-386 | Terminates; requests the first missing number that nobody is downloading, marks the wanted numbers of its span of at most 1024 within its gap, and requests only missing numbers; the requested range is what was marked if and only if, in that span, nothing is missing after a number that is being downloaded; asks for nothing only if every gap is already being downloaded |
| `SyncRanges.RangeIsMarked` | libaecereum/BlockChainSync.cpp:366-380 | The requested range is what was marked if and only if none of it was already being downloaded |
| `SyncRanges.RangeIsSettled` | libaecereum/BlockChainSync.cpp:366-380 | That is so if and only if, in the whole span, from the first number that is being downloaded on all are |
| `SyncRanges.GapIsUnique` | libaecereum/BlockChainSync.cpp:352-365 | A missing number lies in one gap only, so the condition depends on the map, the downloads and the last import alone |
| `SyncRanges.SearchStartSeen` | libaecereum/BlockChainSync.cpp:347-355 | The search begins with a missing number and skips none after the last import |
| `SyncRanges.SpanEndSeen` | libaecereum/BlockChainSync.cpp:359 | A span ends with its gap or a multiple of 1024 after the beginning of the gap |
| `Ethash.DifficultyAtLeastMinimum` | libaecashseal/Ethash.cpp:238 | Never below the minimum |
| `Ethash.DifficultyIs` | libaecashseal/Ethash.cpp:198-239 | Fork by fork: the parent's difficulty with the step or the adjustment in units of a 2048th, and the ice age, kept between the minimum and 2^256 - 1 |
| `Ethash.AdjustmentIs` | libaecashseal/Ethash.cpp:213-217 | The adjustment as a number for every time that has passed |
| `Ethash.IceAgeDoubles` | libaecashseal/Ethash.cpp:222-236 | From 200000 blocks on the ice age doubles every 100000, from Byzantium on with three million blocks taken off |
| `Ethash.IceAgeBegins` | libaecashseal/Ethash.cpp:222-236 | It is nothing below 200000 and one in the first 100000 |
| `Ethash.DifficultyFallsWithTime` | libaecashseal/Ethash.cpp:198-239 | A later timestamp raises the difficulty if and only if, before Homestead, the two timestamps are on either side of the duration limit and the 256-bit sum for the earlier wraps and is not made up for by the ice age or the minimum |
| `Ethash.HomesteadFallsWithTime` | libaecashseal/Ethash.cpp:212-239 | From Homestead on a later timestamp never raises the difficulty, for any parameters |
| `Ethash.WrappedDifficultyRises` | libaecashseal/Ethash.cpp:198-239 | With the largest difficulty for a parent, a block 13 seconds later has a higher difficulty than one a second later |
| `Ethash.DifficultyMovesLittle` | libaecashseal/Ethash.cpp:212-239 | From Homestead on it moves by at most -99 to +2 units of parent / 2048, plus the bomb, within minimum and 2^256 - 1 |
| `Ethash.AdjustmentBound` | libaecashseal/Ethash.cpp:214-217 | The upper bound of the adjustment holds if and only if the block is less than one tick before its parent |
| `Ethash.ChildWithinBounds` | libaecashseal/Ethash.cpp:182-191 | For any target the child gas limit lies strictly within the bounds of verify |
| `Ethash.ChildLimitIs` | libaecashseal/Ethash.cpp:182-191 | The child limit goes towards the target by as much as it may, with the bonus for gas used on the way down, and stops at the target |
| `Ethash.PopulatedIsValid` | libaecashseal/Ethash.cpp:89-134 | A header from populateFromParent passes verify if and only if the next gas limit has room below the maximum, as it has when P + P/1024 does |
| `Ethash.VerifyIs` | libaecashseal/Ethash.cpp:89-134 | A header is valid if and only if its number is one above the parent's and fits 32 bits, it is later, names the parent, uses no more gas than its limit, its limit is within the absolute bounds and strictly within a 1024th of the parent's, and its difficulty is the calculated one |
| `Ethash.WrongDifficultyIsRefused` | libaecashseal/Ethash.cpp:116-119 | A header that is right but for its difficulty is refused |
| `Ethash.FullParentHasNoRoom` | libaecashseal/Ethash.cpp:182-191 | A parent that used all of the maximal gas limit has no valid populated child |

## Left out

- The virtual machine is any finite script of its possible effects, with prices, new addresses and precompiled results as parameters; the ban on writes in static calls is not modelled.
- Hashes are injective values: a storage root is the storage, a code hash the code, a transaction hash the transaction; tries and databases are maps.
- Signature recovery, replay protection and low-s checks; populateFrom, setRoot, m_touched and a State without a start nonce.
- Permanence::Reverted, the block hash contract from Constantinople on and the irregular state change of the DAO fork.
- Threads beyond atomic steps under the locks; signals, logging, wall-clock checks, statistics and byte counts.
- insertWithoutParent, re-insertion of a stored block, transaction addresses, receipts and the rebuild of a database; the bloom of the genesis block, which the code never indexes.
- BlockQueue: retryAllUnknown, clear and future blocks.
- TransactionQueue: the order of m_current. Where the code removes its last entry, the model removes any.
- Block: the header fields other than state, transactions, uncles and gas, and their hashes; extra data and seals in Ethash.
- Sync: everything but the range maps and the search for missing headers.
- BlockQueue.BlockQueue.Import: does not say which further blocks are noted as bad and not ready once queued blocks are removed, because the code takes unspecified values for them.
- BlockQueue.BlockQueue.DoneDrain: the same.
- BlockQueue.BlockQueue.UpdateBad: the same.
- BlockQueue.DrainedKeeps: is for queues in which no block has a bad parent; DoneDrain describes the others.
- Executive.Executive.Go: is a recursion over the script instead of the interpreter loop.
- BlockEther.EnactedConserves: is for a reward below 2^252 and a supply below 2^256, without which the additions of the code wrap.
- BlockEther.SupplyOverBlocks: assumes the same of every block.
