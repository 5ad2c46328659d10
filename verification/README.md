# teler: the layered world state, its journal, block index, gas search and log codec

teler keeps no tries. It keeps one persisted state in a key-value store and a tree of diff layers in memory above it,
one layer for each block. This project models that machinery in Dafny and proves that it cannot be told from something
much simpler: a plain map from addresses to accounts for each block.

## What is modelled

- **The store** (`Database`, `StateStore`). Rows are maps keyed by tuples; a transaction is a batch of writes that
  reads do not see until it is committed. `PersistOnto` says what persisting a layer log does to the rows, and the
  imperative `Transaction` is proved to have that effect. The collector's sweep deletes any of the slots of one queued
  version.
- **The layers** (`LayerTree`, `LayerSteps`, `LayerPrune`, `LayerRestart`, `LayerRuns`, `LayerStops`, `StaleSweeps`,
  `Leaks`). A `World` is the rows, the archive's index, the persisted height and root, and the layers with their
  parents, children and caches. A `View` is what a layer answers. Commits, prune steps, destructions, sweeps, cache
  fills and restarts are steps of a `World`; `RunAgrees` is the theorem about all runs. `LayerStops` says at which
  points inside a step the process may stop and still be restarted, and `StaleSweeps` that a sweep whose query is
  older than any number of steps is as safe as a fresh one; `Leaks` says what sweeps never reclaim. `LayeredStates`
  holds the same state as objects updated in place, and each of its methods is proved to do what the corresponding
  step says (`LayerLoops` has what its loops need).
- **Accounts and the journal** (`Accounts`, `Journal`, `Snapshots`, `Reverts`, `Losses`, `RevertRuns`, `OpMeaning`,
  `Transfers`, `Counts`, `SimpleState`). Undo closures are a datatype. A version modulo 3 says whether an account does
  not exist, is being updated or is being deleted. Reads fill caches that are not journaled, so a revert is exact up
  to what getters can show, and that is what is proved. `SimpleState` is the machine to agree with: it takes whole
  copies as snapshots, and notes beside each copy which accounts have since lost an undo closure or some code.
  `MutableAccounts` and `MutableStates` are the objects; their closures capture account objects, as the source's do.
- **Blocks** (`Overlays`, `TempCommitted`, `Transactions`, `Blocks`, `Commits`, `Genesis`). The per-block overlay
  folds in each transaction's dirty accounts, in any order. `BlockBecomesLayer` joins the two halves: the layer
  committed for a block shows what the plain machine shows after all of the block's transactions. `Nodes` composes
  everything into the life of a node: every live state shows what replaying its branch, block by block and event by
  event, on a plain map gives. `Progress` proves the converse: every block that the plain map allows can be begun, run
  and committed, and blocks do not disturb each other.
- **The block index** (`Blockchain`): `SetHead`, `AddBlock` and `tryPrune`, for every tree of forks.
- **Two smaller cores**: the gas search (`GasEstimate`) and the layer log codec (`Wire`, `Codec`, `Marshalling`,
  `StorageKeys`; `Layout` says what the stored bytes are, `Malformed` which bytes are refused).

Keccak-256 is a parameter. No two codes in play, that is, codes of the genesis allocation and codes that an operation
may set, are assumed to have the same hash, and the empty string has the empty code hash. `Instances` shows that this
can be met: for any codes, up to 2^255 of them, there is such a hash into 256 bits. It also runs a whole node, and
both failing reverts below, with nothing assumed. The EVM appears as an arbitrary sequence of state operations, gas
execution as an arbitrary function from limits to outcomes. Options are parameters with 1 <= PruningFrequency <=
MaxLayerToRetain (and likewise for blocks). Where Go visits a map, the model visits it in any order. Panics are
preconditions (`Enabled`, `CanRevert`, `Allowed`), and the plain machine decides when they hold.

## Where the code falls short of its purpose

Each of these is kept as the code has it, with the exact condition proved.

- `SelfDestruct6780` drops its undo closure (worldstate/mutablestate_impl.go:558). For one operation,
  `Reverts.UndoExactIff`: undoing it is exact if and only if it is not a `SelfDestruct6780` that destroys an account
  which was already dirty. For whole runs, `RevertRuns.RevertRestoresGetters` and `SimpleState.RevertExactIff`: a
  revert restores every getter if and only if no account that was touched when the snapshot was taken has been so
  destroyed since. `RevertRuns.LostUndoShows` reaches a failing revert from the start of a transaction,
  `Instances.LostUndoHappens` from an empty store. Such destructions are allowed in every run; only a revert that
  would have to undo one is kept from the plain machine, which cannot follow it.
- Undoing a removal of code counts up the empty hash instead of the hash that was removed, because the count is
  changed before the hash is put back (worldstate/mutableaccount_impl.go:297-318). For one call,
  `Accounts.SetCodeUndoDiff`: the code diff is restored if and only if the call did not replace code by no code. For
  whole runs, `Counts.RevertKeepsCounts` and `SimpleState.NextDiffs`: a revert leaves every diff exact if and only if
  no account that was touched when the snapshot was taken has had code removed since.
  `Accounts.RevertedRemovalMiscounts` is the failing case, and `Instances.MiscountHappens` reaches it on an empty
  store.
- Replacing code that is not empty by other code that is not empty panics (worldstate/mutableaccount_impl.go:301-304),
  so an account cannot go from one delegation to another. The exact condition is `Accounts.CanSetCode`, and
  `SimpleState.AllowedIsEnabled` proves that the plain machine's `Allowed` is the same condition.
- PersistLayerLog queues the versions an account leaves behind only when the store had a version of the account before
  (statestore/txn.go:84-111). Slots that a new account wrote at a version it left again within the same block are
  stored for good: `Leaks.PersistLeaks` and `Leaks.SweepLeaks` say exactly which rows each operation orphans,
  `Leaks.RunFollows` that orphans stay, and that none are made in a run in which no committed log leaks over its
  parent and sweeps are complete. `Leaks.ShortLivedLeaks` is the failing case.
- A sibling of the swallowed child is destroyed in a transaction of its own, before the one that rewrites the child
  list (worldstate/persistedstate_impl.go:154-187), and `DestructChild` has the same window
  (worldstate/layeredstate_impl.go:228-249). A process that stops in it leaves a list that names missing layers, and
  cannot be restarted. `LayerStops.StoppedDestroying`: the rows can be loaded if and only if no layer is gone yet.
  `LayerStops.PruneNeverStrands`: a prune step can be stopped at all of its points if and only if the swallowed child
  has no sibling. A stop between the two transactions of a commit loses the block and nothing else
  (`LayerStops.CommitStops`).

## Model

| member | source | states |
|---|---|---|
| LayerRuns.RunAgrees | worldstate/persistedstate_impl.go:105-202 | After any run of commits with pruning, fork destruction, collector sweeps, cache fills with arbitrary eviction and restarts, every live state reads as the ledger that keeps one immutable view per committed block; all invariants (tree, archive, stored rows, code counts, collector queue, caches) and the depth bound hold |
| LayerRuns.RunIsPlain | worldstate/layeredstate_impl.go:93-155 | The same run, said of plain maps from addresses to accounts, slots and code, in which versions and layers do not appear |
| LayerRuns.StepAgrees | worldstate/tempcommitted_impl.go:168-235 | One step of such a run, whatever it is, keeps the invariants and the agreement with the ledger |
| LayerRuns.CommitOk | worldstate/tempcommitted_impl.go:182-234 | A commit makes the new layer show its log over its parent, never destroys the layer it has just added, keeps every other surviving view, and restores the depth bound. While the new layer is at most MaxLayerToRetain blocks above the persisted state no state goes; otherwise that moves up by PruningFrequency blocks and exactly the layers above it stay |
| LayerRuns.HandlePruneOk | worldstate/persistedstate_impl.go:105-130 | Pruning from a new layer is invisible under every surviving key, keeps that layer, and leaves nothing more than MaxLayerToRetain blocks above the persisted state. It does nothing while the layer is within MaxLayerToRetain blocks; otherwise the persisted state moves up by PruningFrequency blocks, and exactly the layers above it stay |
| LayerRuns.PruneAlongRoute | worldstate/layeredstate_impl.go:167-171 | The route handed up by HandlePrune is the exact path from the persisted state's child: pruning n states along it raises the persisted state n blocks and never reaches the layer that asked |
| LayerRuns.RouteAfter | worldstate/layeredstate_impl.go:167-171 | After a prune step the route of every survivor is the rest of its old route |
| LayerRuns.CollectOk | statestore/routine.go:38-121 | A sweep of any queued version, of any of its slots, at any moment of a run, cannot be observed and keeps every invariant |
| StaleSweeps.StaleSweepOk | statestore/routine.go:65-116 | Slots found under a queued version may be deleted after any run of commits, prunes, destructions, sweeps of other versions and restarts: the version is still queued, no live state can tell, and nothing is left under it |
| StaleSweeps.RunOnlyShrinks | statestore/txn.go:104-111 | Through any such run no slot is written under a queued version, and only its own sweep takes it off the queue |
| Leaks.PersistLeaks | statestore/txn.go:84-111 | Persisting a log leaves unreachable and unqueued exactly what was so before and the slots it writes at a version that an account new to the store has left again |
| Leaks.SweepLeaks | statestore/routine.go:65-116 | A sweep leaves unreachable and unqueued exactly what was so before and the slots of its version that it did not delete |
| Leaks.PruneLeaks | worldstate/persistedstate_impl.go:164-187 | A prune step orphans exactly what the log of the swallowed child leaks over the persisted state |
| Leaks.RunFollows | statestore/routine.go:38-121 | Over any run an orphaned slot stays orphaned; and if no committed log leaks over its parent and every sweep deletes all slots of its version, no slot is ever orphaned, and no log still waiting in a layer will orphan any |
| Leaks.NodeIsTight | statestore/statestore_impl.go:77-105 | The same from the genesis on |
| Leaks.ShortLivedLeaks | statestore/txn.go:103-111 | Concrete failure: a new account that wrote a slot and was destroyed in the same block leaves that slot in the store for ever |
| LayerRuns.FillOk | worldstate/layeredstate_impl.go:93-155 | Filling a cache with what a lookup returned, evicting anything, cannot be observed; the layer can then answer that lookup itself |
| LayerRuns.DestructOk | worldstate/layeredstate_impl.go:213-250 | Destroying a fork at any moment of a run removes exactly its subtree and cannot be observed in the states that are left |
| LayerRuns.RestartOk | worldstate/persistedstate_impl.go:34-62 | A restart yields the state in memory with empty caches, and cannot be observed |
| LayerPrune.PruneOneOk | worldstate/persistedstate_impl.go:133-202 | One prune step keeps every invariant; each surviving key, the swallowed child's included, shows what it showed; the survivors are exactly the layers above that child |
| LayerPrune.SwallowedView | worldstate/persistedstate_impl.go:190-197 | A layer that is re-parented onto the persisted state, or sits above one that is, keeps its view |
| LayerPrune.PrunedBase | worldstate/persistedstate_impl.go:181-184 | Once its log is persisted, the persisted state shows what the swallowed child showed |
| LayerPrune.PruneMirrored | worldstate/persistedstate_impl.go:190-194 | After a prune step child lists and parent pointers mirror each other again |
| LayerPrune.PruneStored | worldstate/persistedstate_impl.go:164-196 | After a prune step the stored height, child lists and layer logs are exactly those in memory |
| LayerPrune.PruneArchive | worldstate/persistedstate_impl.go:152-201 | After a prune step the archive holds exactly one entry for each live state |
| LayerSteps.AddLayerOk | worldstate/layeredstate_impl.go:278-300 | Adding a layer whose log fits its parent keeps every invariant and every other view, and shows the log over the parent |
| LayerSteps.DescByChildren | worldstate/layeredstate_impl.go:174-178 | Recursion over the child lists reaches a layer's whole subtree and nothing else |
| LayerSteps.DestructChildOk | worldstate/layeredstate_impl.go:213-250 | DestructChild removes exactly one subtree from memory, archive, child lists and layer logs, and changes no other view |
| LayerSteps.ContentsKept | worldstate/layeredstate_impl.go:93-155 | Layers that keep their log, parent and cache on rows that show the same keep their view and their invariants |
| LayerRestart.RestartIsContinuing | worldstate/persistedstate_impl.go:34-62 | Rebuilding from the stored height, child lists and layer logs gives the tree and the archive index that were in memory, caches emptied |
| LayerRestart.FoundAgain | worldstate/persistedstate_impl.go:34-62 | The same whenever every row of the tree is there, whatever other rows are stored beside them |
| LayerStops.StoppedDestroying | worldstate/persistedstate_impl.go:149-157 | With any layers destroyed and the child lists that name them not yet rewritten, the stored rows can be loaded if and only if no layer is gone |
| LayerStops.DestructStops | worldstate/layeredstate_impl.go:213-250 | DestructChild may be stopped before its first deletion and after its list is rewritten, and finds the tree of then; in between nothing can be loaded, the asking state being live all the same |
| LayerStops.PruneStops | worldstate/persistedstate_impl.go:149-187 | The same of a prune step: stopped before it deletes anything, or after its transaction, it finds the tree of then; in between nothing can be loaded |
| LayerStops.PruneNeverStrands | worldstate/persistedstate_impl.go:149-157 | A prune step can be stopped at every one of its points and be loaded again if and only if the child it swallows has no sibling |
| LayerStops.CommitStops | worldstate/tempcommitted_impl.go:187-230 | A stop between the transaction of the new layer and that of its parent's list loses the block and nothing else: the old tree is found and shows what it showed, and committing the block again leads where the commit would have led |
| LayerStops.RouteStops | worldstate/persistedstate_impl.go:105-122 | Between any two prune steps of one commit the stored rows are those of the tree in memory |
| LayerRestart.LoadFinds | worldstate/layeredstate_impl.go:40-90 | Loading one layer recursively finds its whole subtree and nothing more |
| LayerRestart.ArchiveIsIndex | worldstate/statearchive_impl.go:79-104 | The two-level index is determined by the set of states it holds |
| LayerTree.ViewAtOk | worldstate/layeredstate_impl.go:93-155 | Every live state is a well-formed view: canonical accounts, no slot above an account's version, clean storage reads zero, referenced code has its hash |
| LayerTree.VersionsAbovePersisted | worldstate/layeredstate_impl.go:92-109 | Along any chain of layers the version of an account never decreases |
| LayerTree.CachedAcctIsUncached | worldstate/layeredstate_impl.go:92-109 | With caches that do not lie, a cached account lookup answers as the uncached one |
| LayerTree.CachedSlotIsUncached | worldstate/layeredstate_impl.go:132-155 | The same for slots, at every version that is still live at the layer |
| LayerTree.CachedCodeIsUncached | worldstate/layeredstate_impl.go:111-130 | The same for code that some account of the layer refers to |
| LayerLoops.ChildIsNeverRefused | worldstate/persistedstate_impl.go:181-184 | PersistLayerLog takes none of its error branches and does not panic in a prune step |
| LayerLoops.DestructedLast | worldstate/layeredstate_impl.go:174-210 | Destroying the children first and then the layer destroys the layer's subtree |
| LayerLoops.SubtreesApart | worldstate/layeredstate_impl.go:174-178 | The subtrees of siblings do not meet, so none is destroyed twice |
| LayerLoops.AdoptedIs | worldstate/persistedstate_impl.go:190-194 | Telling the swallowed layer's listed children of their new parent re-parents exactly the layers that pointed to it |
| LayerLoops.PersistReads | statestore/txn.go:84-120 | The rows that PersistLayerLog reads are not touched by the destruction of layers before it |
| LayerLoops.ReloadedWorld | worldstate/persistedstate_impl.go:34-62 | Loading the children and registering every state on the way makes the reloaded state |
| Views.OverOk | worldstate/layeredstate_impl.go:93-155 | A layer whose log fits its parent is well formed |
| Views.OverLiveEq | worldstate/layeredstate_impl.go:93-155 | States that agree on what is live below a fitting log agree above it |
| Views.LogFitsLiveEq | worldstate/layeredstate_impl.go:93-155 | Whether a log fits depends only on what is live in the parent |
| Views.LiveEqIsPlainEq | worldstate/layeredstate_impl.go:93-155 | Agreement on live versions and referenced code is all that a plain account map can show |
| Views.HoldersStep | statestore/txn.go:114-163 | Changing one account moves it from the holders of one code hash to those of another |
| LayeredStates.LayerArchive.Register | worldstate/statearchive_impl.go:80-89 | The index gains the state, with a row for its height if there was none |
| LayeredStates.LayerArchive.Deregister | worldstate/statearchive_impl.go:92-104 | The index loses the state, and its height's row if that becomes empty |
| LayeredStates.LayerArchive.Has | worldstate/statearchive_impl.go:131-140 | Whether the index holds the state |
| LayeredStates.LayeredStates.GetAccountValue | worldstate/layeredstate_impl.go:93-109 | Answers as the uncached lookup when caches do not lie; fills the cache of the layer asked and of no layer below it |
| LayeredStates.LayeredStates.GetStorageByVersion | worldstate/layeredstate_impl.go:133-155 | Answers as the uncached lookup at every version live at the state asked when caches do not lie; fills only the cache of the layer asked |
| LayeredStates.LayeredStates.GetCodeByHash | worldstate/layeredstate_impl.go:112-130 | Answers as the uncached lookup for code in use at the state asked when caches do not lie, and that code has the hash; fills only the cache of the layer asked |
| LayeredStates.LayeredStates.AddChild | worldstate/layeredstate_impl.go:278-300 | Appends to the child list in memory and in the store |
| LayeredStates.LayeredStates.NewLayeredState | worldstate/layeredstate_impl.go:40-90 | Loads and registers a layer and everything stored above it, and succeeds exactly when no row is missing |
| LayeredStates.LayeredStates.NewPersistedState | worldstate/persistedstate_impl.go:34-62 | Reaches the reloaded state exactly when every row is found |
| LayeredStates.LayeredStates.Destruct | worldstate/layeredstate_impl.go:174-210 | Destroys exactly the layer's subtree: rows, archive entries and objects |
| LayeredStates.LayeredStates.DestructChild | worldstate/layeredstate_impl.go:213-250 | Does what the destruction step of a run does, and nothing when the child is not listed |
| LayeredStates.LayeredStates.PersistChild | worldstate/persistedstate_impl.go:164-187 | The prune transaction writes all of its rows, or, when a code count cannot be kept, none |
| LayeredStates.LayeredStates.PruneOne | worldstate/persistedstate_impl.go:133-202 | Finds the child exactly when it is listed, and then reaches the state in which it has been swallowed |
| LayeredStates.LayeredStates.PruneRoute | worldstate/persistedstate_impl.go:105-122 | Prunes along the list and stops at the first state that is not a child |
| LayeredStates.LayeredStates.HandlePrune | worldstate/layeredstate_impl.go:168-171 | Passing the growing route down to the persisted state prunes nothing while the whole route is at most MaxLayerToRetain long, and otherwise along its first PruningFrequency states |
| LayeredStates.LayeredStates.Commit | worldstate/tempcommitted_impl.go:174-230 | Refuses exactly the keys the archive has; otherwise reaches the state that the commit step of a run reaches, with the states the options retain |
| Database.PersistShowsLayer | statestore/txn.go:45-176 | Once persisted, the rows answer every account, slot and referenced code lookup as the layer did |
| Database.PersistKeepsDatabase | statestore/txn.go:45-176 | Persisting a fitting log keeps every invariant of the rows |
| Database.PersistCodes | statestore/txn.go:114-163 | After persisting, a code row exists exactly for the code in use, with the number of accounts that use it as its count |
| Database.PersistNeverRefuses | statestore/txn.go:124-153 | A fitting log takes none of the error branches |
| Database.PersistKeepsGc | statestore/txn.go:84-111 | Every queued version stays strictly below the account's persisted version |
| Database.PersistKeepsAccountRows | statestore/txn.go:51-83 | An account has at most one row: a value at an updating version, or a positive version at which it does not exist |
| Database.PersistAccounts | statestore/statestore_impl.go:150-187 | Persisted account rows answer as the layer did |
| Database.PersistSlots | statestore/statestore_impl.go:190-205 | Persisted slot rows answer as the layer did |
| Database.SweepIsSafe | statestore/routine.go:38-121 | A sweep of a queued version keeps the rows well formed and changes nothing live |
| Database.NoWriteToQueued | statestore/txn.go:104-111 | No log built on any layer above the persisted state writes to a queued version |
| StateStore.StateStore.GetAccountValue | statestore/statestore_impl.go:150-187 | Reads the view of the rows: the value, or an empty account at the recorded version, or at version 0 |
| StateStore.StateStore.GetStorageByVersion | statestore/statestore_impl.go:190-205 | Reads the view of the rows: zero when there is no row |
| StateStore.StateStore.GetCodeByHash | statestore/statestore_impl.go:208-223 | Finds exactly the stored code |
| StateStore.StateStore.SweepOne | statestore/routine.go:65-116 | One batch deletes exactly the slots of the queued version, and its queue entry |
| StateStore.StateStore.GcRound | statestore/routine.go:43-119 | A round that may stop after any number of entries takes as many entries off the queue as it has time for, deletes all slots of those versions, and nothing else |
| StateStore.Transaction.PersistLayerLog | statestore/txn.go:45-176 | The batch, whenever it is committed, has the effect stated for persisting the log; refused exactly when some code count is |
| StateStore.Transaction.PersistAccount | statestore/txn.go:51-111 | One account: skipped at version 0, else its row is written or deleted and every version it leaves behind is queued |
| StateStore.Transaction.PersistCode | statestore/txn.go:114-163 | One code hash: refused exactly for a negative count or a missing preimage, else its row follows its count |
| StateStore.Transaction.PersistStorage | statestore/txn.go:166-174 | Every slot of the log is written, in whatever order the maps are visited |
| Accounts.ReadSlotIsSlot | worldstate/mutableaccount_impl.go:166-191 | The slot a caching read returns is the slot the account has, at whichever version it is looked up |
| Accounts.ReadSlotKeeps | worldstate/mutableaccount_impl.go:166-191 | Caching a slot cannot be observed |
| Accounts.ReadCodeKeeps | worldstate/mutableaccount_impl.go:150-158 | Caching code cannot be observed, and the code returned is the account's |
| Accounts.CreateUndo | worldstate/mutableaccount_impl.go:194-214 | The closure of Create leads back to an account that cannot be told from the old one |
| Accounts.SetNonceUndo | worldstate/mutableaccount_impl.go:217-239 | The same for SetNonce, also when it made the account exist |
| Accounts.SetBalanceUndo | worldstate/mutableaccount_impl.go:242-264 | The same for SetBalance |
| Accounts.SetCodeUndo | worldstate/mutableaccount_impl.go:267-320 | The same for SetCode, code counts apart; the account then has the code it was given |
| Accounts.SetStateUndo | worldstate/mutableaccount_impl.go:339-376 | The same for SetState in its three cases: first slot, new slot, known slot |
| Accounts.SelfDestructUndo | worldstate/mutableaccount_impl.go:388-409 | The same for SelfDestruct |
| Accounts.RevertSame | worldstate/mutableaccount_impl.go:194-409 | No closure can tell apart two accounts that differ only in what they have cached |
| Accounts.SetCodeDiff | worldstate/mutableaccount_impl.go:267-296 | SetCode keeps the code diff equal to what the account holds less what it was loaded with |
| Accounts.SetCodeUndoDiff | worldstate/mutableaccount_impl.go:297-318 | Undoing SetCode restores the code diff if and only if it did not replace code by no code |
| Accounts.RevertedRemovalMiscounts | worldstate/mutableaccount_impl.go:297-318 | Concrete failure: after a reverted removal the old hash is counted one reference too low |
| Accounts.FinalizedDiff | worldstate/mutableaccount_impl.go:412-447 | The diff handed over at the end of a transaction is what the final account holds less what was loaded |
| MutableAccounts.MutableAccount.GetState | worldstate/mutableaccount_impl.go:166-191 | The object's caching read: clean storage is zero, an account being deleted reads the version before |
| MutableAccounts.MutableAccount.Code | worldstate/mutableaccount_impl.go:150-158 | The object's caching read of code |
| MutableAccounts.MutableAccount.Create | worldstate/mutableaccount_impl.go:194-214 | The object's new fields and its closure are those whose undoing is proved exact |
| MutableAccounts.MutableAccount.SetNonce | worldstate/mutableaccount_impl.go:217-239 | The same for SetNonce |
| MutableAccounts.MutableAccount.SetBalance | worldstate/mutableaccount_impl.go:242-264 | The same for SetBalance |
| MutableAccounts.MutableAccount.SetCode | worldstate/mutableaccount_impl.go:267-320 | The same for SetCode, closure order included: code count, hash, code |
| MutableAccounts.MutableAccount.SetState | worldstate/mutableaccount_impl.go:339-376 | The same for SetState |
| MutableAccounts.MutableAccount.SelfDestruct | worldstate/mutableaccount_impl.go:388-409 | The same for SelfDestruct |
| MutableAccounts.MutableAccount.Undo | worldstate/mutableaccount_impl.go:194-409 | Running a closure on the object is undoing it on its value |
| MutableAccounts.MutableAccount.GetFinalized | worldstate/mutableaccount_impl.go:412-447 | An account being deleted finalises to an empty account at the next version, its code counted down; any other to itself |
| Snapshots.ChainUndoes | worldstate/mutablestate_impl.go:739-741 | Running a list of closures backwards leads to the state it records, up to caches |
| Snapshots.JournalExtends | worldstate/mutablestate_impl.go:117-123 | Recording what leads back to a state keeps the journal exact |
| Snapshots.JournalRewinds | worldstate/mutablestate_impl.go:735-741 | From any reachable state the journal leads back through every state it has marked |
| Reverts.DoOk | worldstate/mutablestate_impl.go:303-682 | Every operation keeps the invariants, and what it journals leads back to where it started |
| Reverts.UndoExactIff | worldstate/mutablestate_impl.go:550-561 | An operation can be undone exactly if and only if it is not a SelfDestruct6780 that destroys an account that was already dirty |
| Reverts.AccessSlotChain | worldstate/mutablestate_impl.go:608-634 | Undoing an added slot restores the indexed access list, slot sets included, also when the set was new |
| Reverts.TransientChain | worldstate/mutablestate_impl.go:461-479 | Undoing a transient write restores the nested map exactly, inner map included |
| RevertRuns.RunOk | worldstate/mutablestate_impl.go:95-123 | In every reachable state, whatever was destroyed and whatever was reverted, exactly or not, no dirty account is in the state of not existing, every closure in the journal may run when its turn comes, and the access list indices are a bijection onto its slot sets |
| RevertRuns.RevertRestores | worldstate/mutablestate_impl.go:727-747 | After any run of operations, nested snapshots and reverts to newer snapshots, the snapshot can be reverted to; the state is restored, up to caches, if and only if no account that was dirty when it was taken has since been destroyed by a SelfDestruct6780 that dropped its undo |
| RevertRuns.RevertRestoresGetters | worldstate/mutablestate_impl.go:727-747 | The same, with the same condition, of all getters together: balance, nonce, code, slots, existence, transient state, access list, logs, refund, new contracts |
| RevertRuns.RevertLeaves | worldstate/mutablestate_impl.go:727-747 | Without the condition: what a revert leaves is the state of the snapshot, but for the accounts whose undo was lost, which are one version too far |
| RevertRuns.FadedShows | worldstate/mutablestate_impl.go:550-561 | An account whose undo was lost shows as destroyed after the revert, and did not when the snapshot was taken |
| RevertRuns.LostUndoShows | worldstate/mutablestate_impl.go:550-561 | A reachable failing run: create a contract, take a snapshot, destroy the contract with SelfDestruct6780, revert; it shows as destroyed and did not before |
| Instances.HashesExist | worldstate/mutableaccount_impl.go:282-296 | For any codes, up to 2^255 of them, some hash into 256 bits tells all of them and the empty code apart |
| Instances.LostUndoHappens | worldstate/mutablestate_impl.go:550-561 | The failing run exists: on an empty store, with nothing assumed, the revert leaves the getters different from what they were at the snapshot |
| Instances.MiscountHappens | worldstate/mutableaccount_impl.go:297-318 | The failing run exists: on an empty store, removing the code of a contract and reverting the removal leaves a code diff that is not exact |
| Losses.JournalOneUp | worldstate/mutablestate_impl.go:550-561 | Destroying an account behind the journal leaves every closure fit to run and every snapshot taken between operations |
| Losses.RewoundOneUp | worldstate/mutablestate_impl.go:735-741 | Undoing keeps such an account one version ahead until the closure that unloads it runs, and leaves nothing of it then |
| RevertRuns.SameCoreSameGetters | worldstate/mutablestate_impl.go:127-222 | States equal up to caches cannot be told apart by any getter |
| OpMeaning.DoMeans | worldstate/mutablestate_impl.go:303-561 | Each operation changes its own account as its plain meaning says, sums and differences modulo 2^256 included, and no other account |
| Transfers.BalanceMoves | worldstate/mutablestate_impl.go:328-360 | AddBalance adds modulo 2^256; SubBalance subtracts, and clears a difference whose top bit is set, whether the balance was too small or very large |
| Transfers.TransferConserves | worldstate/mutablestate_impl.go:328-360 | A transfer between two accounts that neither lacks the funds, nor wraps, nor leaves 2^255 or more, moves the amount and keeps the total of any accounts that the two are among |
| OpMeaning.ExistsAfter | worldstate/mutablestate_impl.go:125-134 | An account exists once it has been written to, destroyed or not, to the end of the transaction; it shows as destroyed from the operation that destroys it |
| OpMeaning.ExistsUnless | worldstate/mutableaccount_impl.go:104-130 | Under EIP-158 an account exists only while it has a nonce, a balance or code |
| OpMeaning.DoMeansSlots | worldstate/mutablestate_impl.go:418-431 | SetState changes one slot of one account; nothing else changes any slot |
| OpMeaning.AccessListMeans | worldstate/mutablestate_impl.go:564-634 | The indexed access list is a set of addresses and a set of (address, slot) pairs, to which operations only add (EIP-2929) |
| OpMeaning.PlainOpMeans | worldstate/mutablestate_impl.go:443-512 | Transient storage changes at one place at a time; refund, modulo 2^64, logs and new contracts by their own operations only |
| Counts.DoLowers | worldstate/mutableaccount_impl.go:267-318 | An operation undone at once leaves every code count as it was, but for the one account whose code it removed |
| Counts.RevertKeepsCounts | worldstate/mutableaccount_impl.go:297-318 | After any run a revert leaves every code diff exact if and only if no code has been removed since the snapshot from an account that was dirty then |
| SimpleState.AllowedIsEnabled | worldstate/mutableaccount_impl.go:194-409 | An operation panics on the journaled state exactly when the plain state forbids it, and loses an undo exactly when the plain state says so |
| SimpleState.DoIsDone | worldstate/mutablestate_impl.go:303-682 | An operation does to the journaled state what it does to the plain one, and panics on neither |
| SimpleState.RevertExactIff | worldstate/mutablestate_impl.go:727-747 | A revert to a saved snapshot shows the whole copy made then if and only if no account touched then has lost an undo closure since |
| SimpleState.StepSimulates | worldstate/mutablestate_impl.go:710-747 | The same for snapshots, which the plain machine takes as whole copies, and for reverts that are exact, which put a copy back |
| SimpleState.RunSimulates | worldstate/mutablestate_impl.go:710-747 | Any run the plain machine allows, self-destructs of new contracts included, runs on the journaled state without a panic, and their getters agree at its end |
| SimpleState.NextDiffs | worldstate/mutableaccount_impl.go:267-318 | A step leaves every dirty account's code diff exact if and only if it does not revert to a snapshot in which an account was touched whose code has been removed since |
| MutableStates.MutableState.CreateAccount | worldstate/mutablestate_impl.go:303-313 | The object after CreateAccount is the state, journal entries in order, about which exact undoing and plain meaning are proved, when the account may be created |
| MutableStates.MutableState.CreateContract | worldstate/mutablestate_impl.go:316-325 | The object after CreateContract is the state, journal entries in order, about which exact undoing and plain meaning are proved |
| MutableStates.MutableState.SubBalance | worldstate/mutablestate_impl.go:328-344 | The object after SubBalance is the state, journal entries in order, about which exact undoing and plain meaning are proved, and returns the old balance |
| MutableStates.MutableState.AddBalance | worldstate/mutablestate_impl.go:347-360 | The object after AddBalance is the state, journal entries in order, about which exact undoing and plain meaning are proved, and returns the old balance |
| MutableStates.MutableState.SetBalance | worldstate/mutablestate_impl.go:363-375 | The object after SetBalance is the state, journal entries in order, about which exact undoing and plain meaning are proved |
| MutableStates.MutableState.SetNonce | worldstate/mutablestate_impl.go:378-389 | The object after SetNonce is the state, journal entries in order, about which exact undoing and plain meaning are proved |
| MutableStates.MutableState.SetCode | worldstate/mutablestate_impl.go:392-406 | The object after SetCode is the state, journal entries in order, about which exact undoing and plain meaning are proved, and returns the previous code |
| MutableStates.MutableState.SetState | worldstate/mutablestate_impl.go:418-431 | The object after SetState is the state, journal entries in order, about which exact undoing and plain meaning are proved, and returns the previous slot |
| MutableStates.MutableState.SetTransientState | worldstate/mutablestate_impl.go:461-479 | The object after SetTransientState is the state, journal entries in order, about which exact undoing and plain meaning are proved |
| MutableStates.MutableState.AddRefund | worldstate/mutablestate_impl.go:491-499 | The object after AddRefund is the state, journal entries in order, about which exact undoing and plain meaning are proved |
| MutableStates.MutableState.SubRefund | worldstate/mutablestate_impl.go:502-512 | The object after SubRefund is the state, journal entries in order, about which exact undoing and plain meaning are proved, when the refund suffices |
| MutableStates.MutableState.SelfDestruct | worldstate/mutablestate_impl.go:531-543 | The object after SelfDestruct is the state, journal entries in order, about which exact undoing and plain meaning are proved, and returns the old balance |
| MutableStates.MutableState.AddAddressToAccessList | worldstate/mutablestate_impl.go:573-583 | The object after AddAddressToAccessList is the state, journal entries in order, about which exact undoing and plain meaning are proved |
| MutableStates.MutableState.AddSlotToAccessList | worldstate/mutablestate_impl.go:608-634 | The object after AddSlotToAccessList is the state, journal entries in order, about which exact undoing and plain meaning are proved |
| MutableStates.MutableState.AddLog | worldstate/mutablestate_impl.go:669-682 | The object after AddLog is the state, journal entries in order, about which exact undoing and plain meaning are proved |
| MutableStates.MutableState.SelfDestruct6780 | worldstate/mutablestate_impl.go:550-561 | The same for SelfDestruct6780, whose closure is dropped; returns the old balance and whether the contract was new |
| MutableStates.MutableState.GetCode | worldstate/mutablestate_impl.go:178-185 | Returns the code of the account, caching it only in an account that is dirty |
| MutableStates.MutableState.GetState | worldstate/mutablestate_impl.go:212-221 | Returns the slot of the account, caching it only in an account that is dirty |
| MutableStates.MutableState.TakeSnapshot | worldstate/mutablestate_impl.go:710-724 | Marks the last journal entry, after recording an empty one if there was none, and returns a new identifier |
| MutableStates.MutableState.RevertToSnapshot | worldstate/mutablestate_impl.go:727-747 | Finds the marked entry searching backwards and runs the closures after it, last first, on the account objects they captured |
| MutableStates.MutableState.SetTxContext | worldstate/mutablestate_impl.go:224-233 | Resets the transaction fields as the block event says |
| MutableStates.MutableState.Prepare | worldstate/mutablestate_impl.go:257-297 | Rebuilds the access list and clears transient storage as the block event says |
| MutableStates.MutableState.Finalise | worldstate/mutablestate_impl.go:752-775 | Destroys the empty accounts, folds the dirty ones into the overlay in some order, keeps the logs under the hash of the transaction and clears the transaction, as the block event says |
| Overlays.LoadOk | worldstate/tempcommitted_impl.go:69-97 | An overlay that fits its parent hands out accounts on which every account invariant holds |
| Overlays.FoldedSlot | worldstate/tempcommitted_impl.go:153-160 | After folding, the committed storage of an account holds the slots the account had, merely read ones included |
| Overlays.FoldOk | worldstate/tempcommitted_impl.go:143-162 | Folding an account in leaves an overlay whose log fits the parent: versions, freshness, code counts and preimages |
| TempCommitted.TempCommittedState.GetMutableAccount | worldstate/tempcommitted_impl.go:69-97 | The account handed out is that of the overlay, or of the parent, with what the overlay knows of its code and storage |
| TempCommitted.TempCommittedState.ApplyChanges | worldstate/tempcommitted_impl.go:134-165 | Visiting the dirty accounts in any order folds each of them in once, and keeps the logs under the hash of the transaction |
| Transactions.FinaliseOk | worldstate/mutablestate_impl.go:752-775 | At the end of any transaction, in any visiting order, the overlay's log fits the parent |
| Transactions.FinaliseMeans | worldstate/mutablestate_impl.go:752-775 | The overlay then shows each account as the transaction left it, and destroyed or (if asked) empty ones as absent with zero storage (EIP-161) |
| Transactions.FinaliseLogs | worldstate/tempcommitted_impl.go:163-164 | A finished transaction's logs are kept under its hash and counted; those under other hashes stay |
| Transactions.UntouchedShows | worldstate/mutablestate_impl.go:95-114 | An account that was never touched shows what the overlay holds |
| Transactions.FinalVersions | worldstate/mutableaccount_impl.go:412-447 | No committed account is being deleted, and one that does not exist is the canonical empty account, so the panic in PersistLayerLog is unreachable |
| Blocks.PrepareWarms | worldstate/mutablestate_impl.go:257-297 | After Prepare exactly the sender, destination, precompiles, listed addresses and (if told so) the coinbase are warm, exactly the listed slots are, and transient storage is empty (EIP-2929, EIP-2930, EIP-3651) |
| Blocks.EventAgrees | worldstate/mutablestate_impl.go:224-775 | Whatever lawfully happens next in a block, told from the plain state alone, happens alike to the journaled state over its overlay and to the plain one |
| MutableStates.MutableState.GetLogs | worldstate/mutablestate_impl.go:645-664 | Answers the own logs for the running transaction, and the overlay's for any other |
| TempCommitted.TempCommittedState.GetLogs | worldstate/tempcommitted_impl.go:101-122 | Answers the logs kept under the hash, none for a hash that is not known |
| Commits.LogsKept | worldstate/tempcommitted_impl.go:101-165 | For the rest of the block GetLogs answers, for a finished transaction, exactly the logs it ended with, as long as no later context takes up its hash again |
| Commits.BlockLogs | worldstate/mutablestate_impl.go:645-664 | Throughout a block GetLogs answers as a plain map from transaction hashes to logs does |
| Commits.NewBlockAgrees | worldstate/tempcommitted_impl.go:46-66 | A new block on a well-formed parent agrees with any plain state that the parent shows |
| Commits.BlockBecomesLayer | worldstate/tempcommitted_impl.go:174-234 | A block is refused exactly when its key is live. Otherwise the layer committed for it shows what the plain machine shows after all of its transactions, every other surviving state is unchanged, and the states that stay are those the options retain |
| Commits.ZeroUntilWritten | worldstate/mutableaccount_impl.go:166-191 | A slot that reads zero reads zero until it is written, through any destructions and re-creations in the block |
| Commits.SlotReadsAreLive | worldstate/mutableaccount_impl.go:166-191 | A slot is looked up in a layer only at a version that is live there, so a sweep cannot change the answer |
| Commits.CodeReadsAreReferenced | worldstate/mutableaccount_impl.go:150-158 | Code is looked up in a layer only when some account there refers to it |
| Genesis.LayerLogFromGenesis | types/types.go:64-95 | The loop over the allocation builds a log with exactly its accounts, slots, code counts and preimages |
| Genesis.GenesisFits | types/types.go:64-95 | That log fits the empty store |
| Genesis.FirstWorldSafe | statestore/statestore_impl.go:77-105 | The first state of a node satisfies every invariant that runs preserve |
| Genesis.FirstWorldShows | statestore/statestore_impl.go:77-105 | The first state shows the allocation |
| Genesis.FirstLedger | statestore/statestore_impl.go:77-105 | The first state agrees with a ledger that holds the genesis only |
| Genesis.NodeAgrees | worldstate/persistedstate_impl.go:34-202 | From its genesis on, after any run, every live state of a node reads as the ledger of committed blocks, with every invariant and the depth bound |
| Commits.LogFitsNow | worldstate/tempcommitted_impl.go:187-216 | The log of a block fits its parent as the parent is when the block is committed, as long as the parent is live, which is all a commit asks of it |
| Nodes.RunOk | worldstate/tempcommitted_impl.go:168-235 | Blocks run event by event and are committed while the tree is pruned, swept, cached, forked and restarted between any two events: every live state shows what replaying the events of all blocks on its branch on a plain account map gives |
| Nodes.NodeShowsBranches | statestore/statestore_impl.go:77-105 | The same from the genesis on, with the allocation as the plain map to start from |
| Progress.BlockRuns | worldstate/tempcommitted_impl.go:168-235 | The converse, which is progress: a block whose events the plain map of its parent's branch allows, and that ends settled, can be begun on the live parent, run and committed, and its state is then live under the parent's branch and its own events |
| Progress.BlocksApart | worldstate/tempcommitted_impl.go:46-66 | Blocks do not disturb each other: whatever a node does meanwhile, restarts apart, a block whose parent's object stays live has at the end exactly the events that happened in it, in order |
| Instances.ContractOnChain | statestore/statestore_impl.go:77-105 | From an empty genesis a node deploys a contract and writes a slot in its first block, and the new state shows both |
| Instances.SomeNodeRuns | statestore/statestore_impl.go:77-105 | The same with nothing assumed, so that hash, genesis, options and run of the results about whole nodes do exist |
| Nodes.CommitOk | worldstate/tempcommitted_impl.go:174-234 | A commit of the wrong height or of a live key changes nothing; any other makes the key live and records its branch, with the states the options retain, and every live state still shows its branch |
| Nodes.ZeroAfterDestruction | worldstate/mutableaccount_impl.go:412-447 | A transaction that leaves an account destroyed, or deletes it for being empty, makes its slots read zero at the end of the block unless they are written after it |
| Nodes.FreshAfterDestruction | worldstate/mutableaccount_impl.go:166-191 | When any block on a live state's branch destroyed an account, each of its slots reads zero in that state unless written since, however often the account was created again and however many blocks were pruned or swept |
| Blockchain.CanonicalAfterSetHead | blockchain/blockchain_impl.go:502-556 | After a successful SetHead every height from the tail to the new head maps to the new head's ancestor there, and no height above to anything |
| Blockchain.CanonicalBelow | blockchain/blockchain_impl.go:528-556 | A block whose ancestor at a height is canonical has canonical ancestors at every height below, so the walk may stop |
| Blockchain.RethreadedOk | blockchain/blockchain_impl.go:453-571 | Making a stored block the head keeps every invariant of the index, every block, and the forks that the rows list |
| Blockchain.AddedOk | blockchain/blockchain_impl.go:275-360 | A new block is stored and joins its height's row, a new one if there was none; every other block and row, the tail, the head and the canonical chain stay |
| Blockchain.AddedCanBeHead | blockchain/blockchain_impl.go:275-360 | Once added, a block can be made the head exactly when its parent descends from the canonical block at the tail |
| Blockchain.CutOk | blockchain/blockchain_impl.go:363-450 | Deleting everything below a new tail keeps the invariants and the canonical chain from the tail to the head |
| Blockchain.TryPrunedOk | blockchain/blockchain_impl.go:363-450 | Nothing is pruned while the window is within MaxBlockToRetain; otherwise the tail moves up by PruningFrequency. Pruning deletes the blocks and rows below the new tail on every fork and no others, never the head, and brings the window back within bounds |
| Blockchain.GenesisOk | blockchain/blockchain_impl.go:41-113 | The index of a genesis block satisfies the invariants and holds that block alone, canonical |
| Blockchain.BlockIndex.GetBlockByNumber | blockchain/blockchain_impl.go:136-153 | Finds a block exactly from the tail to the head, and it is the canonical one; the two errors are told apart |
| Blockchain.BlockIndex.AddBlock | blockchain/blockchain_impl.go:275-360 | Each of the two silent refusals and two errors leaves the index unchanged; otherwise the block is stored and appended to its height's row, and nothing else changes |
| Blockchain.BlockIndex.PruneHeight | blockchain/blockchain_impl.go:373-433 | One height: all of its blocks and its row are deleted, or nothing is when some listed block is missing |
| Blockchain.BlockIndex.TryPrune | blockchain/blockchain_impl.go:363-450 | Does nothing while the window is within MaxBlockToRetain; otherwise the tail moves up by PruningFrequency and exactly the blocks below it go |
| Blockchain.BlockIndex.SetHead | blockchain/blockchain_impl.go:453-571 | Succeeds if and only if the block is stored above the tail and descends from the canonical block there; any error leaves the index unchanged and says where the walk from the block left it; after success its ancestors from the tail, which has moved only if the window was too long, are canonical and nothing else is, and all blocks and forks from that tail on stay |
| GasEstimate.TightIsAlmostMinimal | rpc/estimate.go:194-229 | For a monotone predicate a tight estimate is the smallest limit that succeeds, or exceeds it by less than 1.5 percent of the estimate |
| GasEstimate.Estimator.Allowance | rpc/estimate.go:101-137 | The allowance is exactly what the balance pays for; the two shortages are told apart |
| GasEstimate.Estimator.Bisect | rpc/estimate.go:194-229 | The skewed bisection terminates and returns a limit that succeeded, next to or close above one that failed |
| GasEstimate.Estimator.Estimate | rpc/estimate.go:90-230 | An estimate has succeeded, is affordable and, when the gas used less one fails, is tight; each error means what it says; the call's gas limit is put back |
| Wire.Uint64RoundTrip | types/utils.go:203-211 | Varints decode to what was encoded before any suffix, and their size is the one announced |
| Wire.IntRoundTrip | types/utils.go:213-229 | The same for zig-zag signed integers |
| Wire.MapRoundTrips | types/utils.go:144-162 | A map whose keys and values round-trip does so in any order of its entries |
| Codec.LayerLogRoundTrip | types/utils.go:213-285 | Every encoding of a log, in any map order and before any suffix, decodes to that log and consumes the announced size |
| Codec.LayerLogUnambiguous | types/utils.go:213-268 | No encoding belongs to two logs, and none is the beginning of another's |
| Malformed.TruncatedIsRefused | types/utils.go:232-268 | An encoding that has been cut off anywhere is refused |
| Malformed.NegativeLengths | types/utils.go:151-156 | A slice, a string or a map of negative length is refused with its own error |
| Malformed.OtherFlags | types/utils.go:175-200 | A flag that is neither 0 nor 1 is refused |
| Malformed.TooLong | types/utils.go:232-236 | A number whose bytes all say that more follow overflows |
| Layout.LogLayout | types/utils.go:213-229 | The bytes of a log are its block number, root hash, accounts, code counts, code preimages and storage, in this order |
| Layout.AccountLayout | types/utils.go:165-173 | The bytes of an account are its nonce, balance, code hash, storage flag and version, in this order |
| Layout.VarintBytes | types/utils.go:213-215 | A varint holds seven bits a byte, the lowest first, the high bit saying that more follow, and no byte is wasted |
| Layout.BigEndian | types/utils.go:39-70 | Hashes and addresses are big-endian |
| Layout.SignedBytes | types/utils.go:213-229 | Signed numbers and lengths are written with alternating signs: 0, -1, 1, -2, 2 as 0, 1, 2, 3, 4 |
| Layout.ByteBytes | types/utils.go:123-127 | Each byte of a slice is a varint of its own, two bytes from 128 on |
| Layout.SliceBytes | types/utils.go:123-127 | A slice is its length and then its bytes in order |
| Layout.MapLayout | types/utils.go:144-162 | A map of one entry is its length, the key and the value |
| Layout.KeyLayout | types/utils.go:25-27 | A storage key is 0x, forty hexadecimal digits, a dash and the version |
| Layout.KeyCharacters | types/utils.go:25-27 | Its characters are 0 to 9, a to f and A to F |
| Layout.DecimalDigitAt | types/utils.go:25-27 | The version is written in decimal digits, the highest first, without leading zeros |
| Layout.HexDigitAt | types/utils.go:25-36 | The digits of an address in a storage key, the highest first |
| Marshalling.MarshalLayerLog | types/utils.go:213-229 | The buffer receives one of the log's encodings, of the announced size, and nothing outside it changes |
| Marshalling.MarshalAccountValue | types/utils.go:165-173 | An account is written at the running offset, the balance without leading zeros |
| Marshalling.MarshalStorage | types/utils.go:213-229 | The nested storage maps are written, in whatever order they are visited |
| Marshalling.UnmarshalMap | types/utils.go:151-156 | Reading a map entry by entry computes the specified decoding, errors included |
| StorageKeys.KeySplits | types/utils.go:25-36 | A storage key comes apart into the address and version it was made of, however its hexadecimal digits are cased |
| StorageKeys.RepresentsOnce | types/utils.go:25-36 | A log with string keys stands for one log keyed by pairs only |
| StorageKeys.StoredLogRoundTrip | types/utils.go:213-268 | Storing a log and reading it back yields that log and no other |

## Left out

- LayerRuns.RunAgrees: block heights, versions and reference counts are unbounded numbers, so wrap-around of uint64 and int64 after 2^63 changes is not modelled; each step of a run is atomic: LayerStops says what a process that stops inside a prune step, a destruction or a commit finds again, but a run does not go on from there in the states that cannot be loaded, and a block that was stopped half-way through its commit leaves two rows that a run does not carry. I/O errors and retention options that change during a run are not modelled.
- LayeredStates.LayeredStates.Destruct: layer objects are entries of one table named by (height, root hash), so a reader that holds a layer object across its destruction or a later prune is not modelled; the objects' own locks and the archive's lock are left out.
- LayeredStates.LayeredStates.GetAccountValue: which entries an LRU cache evicts is left arbitrary.
- LayeredStates.LayeredStates.Commit: the collector's deletions may be committed between any two operations, however old its query (StaleSweeps.StaleSweepOk), not between the reads and the commit of one transaction; it writes slot and queue rows only, which PersistLayerLog does not read.
- StateStore.StateStore.SweepOne: string keys, prefix queries, datastore errors and time limits are left out.
- Leaks.RunFollows: which blocks commit a leaking log is said of the log and its parent, not of the block's events; a queued version that is never swept in time is not counted as a leak.
- Blocks.EventAgrees: SetTxContext and Prepare are taken before the first snapshot of a transaction, because they reset fields without journaling them. A revert to a snapshot that knew an account which has since lost its undo, or its code, is not lawful; RevertRuns.RevertRestores and Counts.RevertKeepsCounts say exactly what such a revert spoils.
- SimpleState.RunSimulates: a caller must not create an account over one that is not empty, must not take the refund below zero, must not destroy an account that does not exist, and must not replace non-empty code by other non-empty code; the source panics there, except that SelfDestruct6780 on an account that does not exist and is not new leaves it dirty, which Finalise may panic on. A revert that is not exact is not part of these runs; RevertRuns.RunOk covers it.
- MutableStates.MutableState.SetCode: GetCodeSize, GetStorageRoot, tracing hooks, preimages and witnesses are not modelled.
- MutableStates.MutableState.GetLogs: the block number and hash that it writes into the logs it answers are left out.
- Nodes.RunOk: a block whose parent has been destroyed or swallowed can only be abandoned, as its parent object in the source is stale (worldstate/tempcommitted_impl.go:217-222); a block's reads are those of its parent when the block was begun, which Commits.SlotReadsAreLive and Commits.CodeReadsAreReferenced show to be the same at any later time; the flag that would refuse a second commit is never set in the source (worldstate/tempcommitted_impl.go:173), so a block may be committed again under another key.
- Blockchain.BlockIndex.AddBlock: a validated block has its parent's height plus one, which the index itself does not check; transaction and receipt rows are left out, because they are overwritten by the last added block and deleted with any pruned one.
- Blockchain.BlockIndex.TryPrune: each height's transaction either commits or not, without datastore errors.
- GasEstimate.Estimator.Estimate: the limit tried first, the gas used plus a stipend, only speeds the search up and is not part of what is promised; gas limits are below 2^54, so that no sum or product of the search overflows uint64; the quotient compared with ErrorRatio is a real number, not a float64; an execution that succeeds uses at least two units of gas and at most its limit.
- Codec.LayerLogRoundTrip: numbers, slices, strings and maps of the mus-go library are defined here as base-128 varints, zig-zag signed lengths and counted entries; the library itself is not part of this model.
- Marshalling.UnmarshalMap: unmarshalling a whole log is modelled as a function on byte sequences (`Codec.DecodeLayerLog`); only its map loops are written as loops.
- OverrideStorage and the debug storage override: an override's undo does not restore an earlier override.
- Copy of a mutable state or an overlay: copying a non-empty access list indexes an empty slice in the source.
- The EVM, consensus, block processing and validation, RLP and JSON, RPC handlers, tracing, command line, node loop and network source.
- GetFinalized and GetSafe block markers, and lookups of headers, transactions and receipts by hash: they would only add easy members.
