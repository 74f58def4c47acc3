/** Keeping a game's state in sync with the daemon's chain (xayagame/game.cpp). */
module Games {
  import opened Wrappers
  import opened BlockTrees
  import opened GameStorage

  datatype SyncState = UNKNOWN | PREGENESIS | OUT_OF_SYNC | CATCHING_UP | UP_TO_DATE

  /**
   * What the daemon and the storage do while the state is reinitialised: the answers to the RPC
   * calls, the failures of storing the initial state before it succeeds, and whether committing a
   * batch fails when the batch size changes.
   */
  datatype Replies = Replies(
    bestHash: Hash, blocks: nat, toBlock: Hash, reqtoken: string, failures: seq<Failure>, flushFails: bool)

  datatype UpdateResult = Updated | Mismatch | Retry

  /** What decides whether reinitialising commits a batch: its size, and the stored block. */
  datatype Standing = Standing(batched: nat, current: Option<Hash>)

  class Game<!S(0), !B, !U> {
    const world: World<S, B, U>
    const storage: Storage<S, B, U>
    const manager: TransactionManager<S, B, U>
    const transactionBatchSize: nat
    var state: SyncState
    var targetBlockHash: Hash
    var reqToken: string
    var genesisHash: Option<Hash>
    var genesisHeight: nat

    constructor (storage: Storage<S, B, U>, manager: TransactionManager<S, B, U>, batchSize: nat)
      requires manager.storage == storage && manager.Idle() && batchSize >= 1
      requires storage.world.Lawful() && storage.HeightRight()
      requires Faithful(storage.world, storage.Value()) && Faithful(storage.world, storage.Committed())
      ensures this.storage == storage && this.manager == manager && this.world == storage.world
      ensures Sound() && state == UNKNOWN
    {
      world, this.storage, this.manager, transactionBatchSize := storage.world, storage, manager, batchSize;
      state, targetBlockHash, reqToken, genesisHash, genesisHeight := UNKNOWN, "", "", None, 0;
    }

    /** All that is stored, and all that a rollback returns to, is right. */
    ghost predicate Sound()
      reads this, storage, manager
    {
      && manager.storage == storage && storage.world == world && transactionBatchSize >= 1
      && world.Lawful() && manager.Idle()
      && Faithful(world, storage.Value()) && Faithful(world, storage.Committed())
      && storage.HeightRight()
      && (genesisHash.Some? ==> genesisHash.value == world.genesis && genesisHeight == world.height(world.genesis))
    }

    /** Ready for notifications: never in the states in which the source would abort. */
    ghost predicate Valid()
      reads this, storage, manager
    {
      && Sound()
      && (state == PREGENESIS || state == CATCHING_UP || state == UP_TO_DATE)
      && (state == PREGENESIS <==> storage.current.None?)
      && (state == PREGENESIS ==> targetBlockHash == world.genesis)
    }

    /** The block to which the stored state belongs. */
    ghost function CurrentHash(): Option<Hash>
      reads storage
    {
      if storage.current.Some? then Some(storage.current.value.hash) else None
    }

    // ---- When an exception escapes ----

    ghost function Now(): Standing
      reads manager, storage
    {
      Standing(manager.batchedCommits, CurrentHash())
    }

    /** Committing the batch fails when the batch size is set for syncing from the given block. */
    predicate FlushFails(rpc: Replies, batched: nat, current: Hash) {
      rpc.flushFails && batched > 0 && batched >= (if rpc.bestHash == current then 1 else transactionBatchSize)
    }

    /** Reinitialising from there lets the exception of a failing commit escape. */
    ghost predicate ReinitFails(rpc: Replies, s: Standing)
      reads manager`batchSize
    {
      match s.current
      case Some(h) => FlushFails(rpc, s.batched, h)
      case None =>
        rpc.blocks >= world.height(world.genesis)
        && FlushFails(rpc, if manager.batchSize <= 1 then 0 else 1, world.genesis)
    }

    ghost predicate TransactionFails(failure: Failure)
      reads manager
    {
      || failure == AtFirstWrite || failure == AtSecondWrite
      || (failure == AtCommit && manager.batchedCommits + 1 >= manager.batchSize)
    }

    ghost function NextBatched(): nat
      reads manager
    {
      if manager.batchedCommits + 1 >= manager.batchSize then 0 else manager.batchedCommits + 1
    }

    /** What is left to fall back to if the open batch is rolled back. */
    ghost function RolledBack(): Standing
      reads storage
    {
      var c := storage.Committed().current;
      Standing(0, if c.Some? then Some(c.value.hash) else None)
    }

    ghost function AfterAttach(m: Message<B>, failure: Failure): (UpdateResult, Standing)
      reads manager, storage
    {
      if CurrentHash() != Some(m.parent) then (Mismatch, Now())
      else if TransactionFails(failure) then (Retry, RolledBack())
      else (Updated, Standing(NextBatched(), Some(m.hash)))
    }

    ghost function AfterDetach(m: Message<B>, failure: Failure): (UpdateResult, Standing)
      reads manager, storage
    {
      if CurrentHash() != Some(m.hash) then (Mismatch, Now())
      else if m.hash == world.genesis then (Mismatch, Standing(0, None))
      else if TransactionFails(failure) then (Retry, RolledBack())
      else (Updated, Standing(NextBatched(), Some(m.parent)))
    }

    /** Handling an attach message lets an exception escape. */
    ghost predicate AttachFails(m: Message<B>, seqMismatch: bool, failure: Failure, rpc: Replies)
      reads this, manager, storage
    {
      if seqMismatch then ReinitFails(rpc, Now())
      else if m.reqtoken != (if state == CATCHING_UP then reqToken else "") then false
      else if state == PREGENESIS then m.hash == targetBlockHash && ReinitFails(rpc, Now())
      else
        var (r, after) := AfterAttach(m, failure);
        (r != Updated || (state == CATCHING_UP && m.hash == targetBlockHash)) && ReinitFails(rpc, after)
    }

    ghost predicate DetachFails(m: Message<B>, seqMismatch: bool, failure: Failure, rpc: Replies)
      reads this, manager, storage
    {
      if seqMismatch then ReinitFails(rpc, Now())
      else if m.reqtoken != (if state == CATCHING_UP then reqToken else "") || state == PREGENESIS then false
      else
        var (r, after) := AfterDetach(m, failure);
        (r != Updated || (state == CATCHING_UP && m.parent == targetBlockHash)) && ReinitFails(rpc, after)
    }

    /** Reaching the tip with a batch that is not full: if its commit throws, the exception escapes. */
    lemma FinishingCatchUpCanFail(m: Message<B>, rpc: Replies)
      requires state == CATCHING_UP && m.reqtoken == reqToken && m.hash == targetBlockHash
      requires CurrentHash() == Some(m.parent) && manager.batchedCommits + 1 < manager.batchSize
      requires rpc.flushFails && rpc.bestHash == m.hash
      ensures AttachFails(m, false, Never, rpc)
    {
    }

    // ---- Single blocks ----

    method UpdateStateForAttach(m: Message<B>, failure: Failure) returns (r: UpdateResult)
      requires Sound() && Truthful(world, m) && storage.current.Some?
      modifies storage, manager
      ensures Sound() && manager.batchSize == old(manager.batchSize)
      ensures (r, Now()) == old(AfterAttach(m, failure))
      ensures r == Mismatch <==> old(CurrentHash()) != Some(m.parent)
      ensures r == Mismatch ==> storage.Value() == old(storage.Value())
      ensures r == Updated ==>
        world.OnTree(m.hash) && storage.current == Some(Stored(m.hash, world.StateAt(m.hash)))
      ensures r == Retry ==> failure != Never && storage.Value() == old(storage.Committed())
    {
      hide World.Lawful, Faithful;
      var oldHash, oldState := storage.current.value.hash, storage.current.value.state;
      if oldHash != m.parent {
        return Mismatch;
      }
      AttachIsRight(m, storage.Value());
      var (newState, undo) := world.forward(oldState, m.block);
      var ok := StoreAttached(m, newState, undo, failure);
      r := if ok then Updated else Retry;
    }

    /** Stores the new state and its undo data in a transaction, rolled back if anything in it throws. */
    method StoreAttached(m: Message<B>, newState: S, undo: U, failure: Failure) returns (ok: bool)
      requires Sound() && world.height(m.hash) == m.height
      requires Faithful(world, Snapshot(Some(Stored(m.hash, newState)), storage.undo[m.hash := undo]))
      modifies storage, manager
      ensures Sound() && manager.batchSize == old(manager.batchSize)
      ensures ok <==> !old(TransactionFails(failure))
      ensures ok ==> storage.current == Some(Stored(m.hash, newState)) && manager.batchedCommits == old(NextBatched())
      ensures !ok ==> storage.Value() == old(storage.Committed()) && manager.batchedCommits == 0
    {
      hide World.Lawful, Faithful;
      manager.BeginTransaction();
      ok := failure != AtFirstWrite;
      if ok {
        storage.AddUndoData(m.hash, undo);
        ok := failure != AtSecondWrite;
      }
      if ok {
        storage.SetCurrentGameStateWithHeight(m.hash, m.height, newState);
        ok := manager.CommitTransaction(failure == AtCommit);
      }
      if !ok {
        manager.RollbackTransaction();
      }
    }

    /** Storing the next block's state and undo data keeps the stored data right. */
    lemma AttachIsRight(m: Message<B>, s: Snapshot<S, U>)
      requires world.Lawful() && Faithful(world, s) && Truthful(world, m)
      requires s.current.Some? && s.current.value.hash == m.parent
      ensures world.OnTree(m.hash) && m.hash != world.genesis
      ensures var (t, u) := world.forward(s.current.value.state, m.block);
        && t == world.StateAt(m.hash)
        && Faithful(world, Snapshot(Some(Stored(m.hash, t)), s.undo[m.hash := u]))
    {
      world.ChildOnTree(m.hash);
      var u := world.forward(s.current.value.state, m.block).1;
      world.CoversFrame(s.undo, s.undo[m.hash := u], m.parent, m.hash);
    }

    method UpdateStateForDetach(m: Message<B>, failure: Failure) returns (r: UpdateResult)
      requires Sound() && Truthful(world, m) && storage.current.Some?
      modifies storage, manager
      ensures Sound() && manager.batchSize == old(manager.batchSize)
      ensures (r, Now()) == old(AfterDetach(m, failure))
      ensures r == Mismatch <==> old(CurrentHash()) != Some(m.hash) || m.hash == world.genesis
      ensures r == Mismatch ==>
        storage.Value() == if old(CurrentHash()) == Some(m.hash) then Snapshot(None, map[]) else old(storage.Value())
      ensures r == Updated ==>
        world.OnTree(m.parent) && storage.current == Some(Stored(m.parent, world.StateAt(m.parent)))
      ensures r == Retry ==> failure != Never && storage.Value() == old(storage.Committed())
    {
      hide World.Lawful, Faithful;
      var currentHash, newState := storage.current.value.hash, storage.current.value.state;
      if currentHash != m.hash {
        return Mismatch;
      }
      GenesisHasNoUndo(storage.Value());
      if m.hash !in storage.undo {
        manager.TryAbortTransaction();
        storage.Clear();
        EmptyIsFaithful();
        return Mismatch;
      }
      var undo := storage.undo[m.hash];
      DetachIsRight(m, storage.Value());
      var oldState := world.backward(newState, m.block, undo);
      var ok := StoreDetached(m, oldState, failure);
      r := if ok then Updated else Retry;
    }

    /** Stores the parent's state in a transaction, which is rolled back if anything in it throws. */
    method StoreDetached(m: Message<B>, oldState: S, failure: Failure) returns (ok: bool)
      requires Sound() && world.OnTree(m.parent) && oldState == world.StateAt(m.parent)
      requires world.height(m.parent) + 1 == m.height
      requires Faithful(world, Snapshot(Some(Stored(m.parent, oldState)), storage.undo))
      requires Faithful(world, Snapshot(Some(Stored(m.parent, oldState)), storage.undo - {m.hash}))
      modifies storage, manager
      ensures Sound() && manager.batchSize == old(manager.batchSize)
      ensures ok <==> !old(TransactionFails(failure))
      ensures ok ==> storage.current == Some(Stored(m.parent, oldState)) && manager.batchedCommits == old(NextBatched())
      ensures !ok ==> storage.Value() == old(storage.Committed()) && manager.batchedCommits == 0
    {
      hide World.Lawful, Faithful;
      manager.BeginTransaction();
      ok := failure != AtFirstWrite;
      if ok {
        storage.SetCurrentGameStateWithHeight(m.parent, m.height - 1, oldState);
        ok := failure != AtSecondWrite;
      }
      if ok {
        storage.ReleaseUndoData(m.hash);
        ok := manager.CommitTransaction(failure == AtCommit);
      }
      if !ok {
        manager.RollbackTransaction();
      }
    }

    lemma EmptyIsFaithful()
      ensures Faithful(world, Snapshot(None, map[]))
    {
    }

    /** Undo data for the current block is missing exactly at the genesis block. */
    lemma GenesisHasNoUndo(s: Snapshot<S, U>)
      requires Faithful(world, s) && s.current.Some?
      ensures s.current.value.hash in s.undo <==> s.current.value.hash != world.genesis
    {
    }

    lemma DetachIsRight(m: Message<B>, s: Snapshot<S, U>)
      requires world.Lawful() && Faithful(world, s) && Truthful(world, m)
      requires s.current.Some? && s.current.value.hash == m.hash && m.hash in s.undo
      ensures world.OnTree(m.parent) && world.height(m.parent) == m.height - 1
      ensures world.backward(s.current.value.state, m.block, s.undo[m.hash]) == world.StateAt(m.parent)
      ensures Faithful(world, Snapshot(Some(Stored(m.parent, world.StateAt(m.parent))), s.undo))
      ensures Faithful(world, Snapshot(Some(Stored(m.parent, world.StateAt(m.parent))), s.undo - {m.hash}))
    {
      assert world.Undoable(m.hash);
      world.CoversFrame(s.undo, s.undo - {m.hash}, m.parent, m.hash);
    }

    // ---- Reinitialising ----

    /** Asks for updates from the stored block; false if committing the batch throws. */
    method SyncFromCurrentState(rpc: Replies, currentHash: Hash) returns (ok: bool)
      requires Sound() && state == OUT_OF_SYNC && CurrentHash() == Some(currentHash)
      modifies this`state, this`targetBlockHash, this`reqToken, manager, storage`startedTxn
      ensures Faithful(world, storage.Committed()) && Faithful(world, storage.Value())
      ensures ok ==> Valid() && state == if rpc.bestHash == currentHash then UP_TO_DATE else CATCHING_UP
      ensures ok && state == CATCHING_UP ==> targetBlockHash == rpc.toBlock && reqToken == rpc.reqtoken
      ensures ok <==> !FlushFails(rpc, old(manager.batchedCommits), currentHash)
    {
      hide World.Lawful, Faithful;
      if rpc.bestHash == currentHash {
        state := UP_TO_DATE;
        ok := manager.SetBatchSize(1, rpc.flushFails);
        return;
      }
      state := CATCHING_UP;
      ok := manager.SetBatchSize(transactionBatchSize, rpc.flushFails);
      targetBlockHash, reqToken := rpc.toBlock, rpc.reqtoken;
    }

    /** Stores the initial state, in a transaction of its own that is retried until it succeeds. */
    method StoreInitialState(failures: seq<Failure>)
      requires Sound() && !storage.startedTxn && storage.Value() == Snapshot(None, map[])
      modifies storage, manager
      ensures Sound() && manager.batchSize == old(manager.batchSize)
      ensures manager.batchedCommits == if manager.batchSize <= 1 then 0 else 1
      ensures storage.current == Some(Stored(world.genesis, world.initial)) && storage.undo == map[]
    {
      hide World.Lawful;
      var i, done := 0, false;
      while !done
        invariant Sound() && manager.batchSize == old(manager.batchSize)
        invariant done ==> manager.batchedCommits == if manager.batchSize <= 1 then 0 else 1
        invariant !done ==> !storage.startedTxn && storage.Value() == Snapshot(None, map[])
        invariant done ==> storage.current == Some(Stored(world.genesis, world.initial)) && storage.undo == map[]
        invariant i <= |failures|
        decreases |failures| - i, !done
      {
        var failure := if i < |failures| then failures[i] else Never;
        i := if i < |failures| then i + 1 else i;
        manager.BeginTransaction();
        if failure == AtFirstWrite {
          manager.RollbackTransaction();
        } else {
          storage.SetCurrentGameStateWithHeight(world.genesis, world.height(world.genesis), world.initial);
          done := manager.CommitTransaction(failure == AtCommit);
          if !done {
            manager.RollbackTransaction();
          }
        }
      }
    }

    /**
     * Goes on from the stored state, waits for the genesis block, or starts from the initial state.
     * False only if committing the batch throws, which the source does not catch here.
     */
    method ReinitialiseState(rpc: Replies) returns (ok: bool)
      requires Sound()
      modifies this, storage, manager
      ensures Faithful(world, storage.Committed()) && Faithful(world, storage.Value())
      ensures ok ==> Valid()
      ensures ok <==> !old(ReinitFails(rpc, Now()))
      ensures ok && old(storage.current).Some? ==> storage.Value() == old(storage.Value())
      ensures ok && old(storage.current).None? ==>
        if rpc.blocks < world.height(world.genesis) then state == PREGENESIS && storage.Value() == old(storage.Value())
        else storage.current == Some(Stored(world.genesis, world.initial))
      ensures ok ==> (state == UP_TO_DATE <==> CurrentHash() == Some(rpc.bestHash))
    {
      hide World.Lawful, Faithful;
      state := UNKNOWN;
      if storage.current.Some? {
        state := OUT_OF_SYNC;
        ok := SyncFromCurrentState(rpc, storage.current.value.hash);
        return;
      }
      if genesisHash.None? {
        genesisHeight := world.height(world.genesis);
        genesisHash := Some(world.genesis);
      }
      if rpc.blocks < genesisHeight {
        state := PREGENESIS;
        targetBlockHash := genesisHash.value;
        return true;
      }
      manager.TryAbortTransaction();
      storage.Clear();
      EmptyIsFaithful();
      StoreInitialState(rpc.failures);
      state := OUT_OF_SYNC;
      ok := SyncFromCurrentState(rpc, world.genesis);
    }

    // ---- Notifications ----

    predicate IsReqtokenRelevant(reqtoken: string)
      reads this
    {
      if state == CATCHING_UP then reqtoken == reqToken else reqtoken == ""
    }

    /** What is handed to the pending-move processor: the confirmed state, while we are up-to-date. */
    function Confirmed(): Option<S>
      reads this, storage
      requires state == UP_TO_DATE ==> storage.current.Some?
    {
      if state == UP_TO_DATE then Some(storage.current.value.state) else None
    }

    /** The state at this block is stored. */
    ghost predicate Reached(h: Hash)
      reads storage
    {
      world.OnTree(h) && storage.current == Some(Stored(h, world.StateAt(h)))
    }

    /** What an attached block means in the current state, and whether that has to be found out anew. */
    method HandleAttach(m: Message<B>, failure: Failure) returns (needReinit: bool)
      requires Valid() && Truthful(world, m)
      modifies storage, manager
      ensures Sound() && manager.batchSize == old(manager.batchSize)
      ensures state == PREGENESIS ==>
        storage.Value() == old(storage.Value()) && Now() == old(Now()) && (needReinit <==> m.hash == targetBlockHash)
      ensures state != PREGENESIS ==>
        var (r, after) := old(AfterAttach(m, failure));
        && Now() == after
        && (needReinit <==> r != Updated || (state == CATCHING_UP && m.hash == targetBlockHash))
        && (r == Updated ==> Reached(m.hash))
        && (r == Mismatch ==> storage.Value() == old(storage.Value()))
    {
      hide World.Lawful, Faithful, RolledBack, NextBatched;
      if state == PREGENESIS {
        needReinit := m.hash == targetBlockHash;
      } else {
        var r := UpdateStateForAttach(m, failure);
        needReinit := r != Updated || (state == CATCHING_UP && m.hash == targetBlockHash);
      }
    }

    method HandleDetach(m: Message<B>, failure: Failure) returns (needReinit: bool)
      requires Valid() && Truthful(world, m)
      modifies storage, manager
      ensures Sound() && manager.batchSize == old(manager.batchSize)
      ensures state == PREGENESIS ==> !needReinit && storage.Value() == old(storage.Value()) && Now() == old(Now())
      ensures state != PREGENESIS ==>
        var (r, after) := old(AfterDetach(m, failure));
        && Now() == after
        && (needReinit <==> r != Updated || (state == CATCHING_UP && m.parent == targetBlockHash))
        && (r == Updated ==> Reached(m.parent))
        && (r == Mismatch && old(CurrentHash()) == Some(m.hash) ==> storage.Value() == Snapshot(None, map[]))
        && (r == Mismatch && old(CurrentHash()) != Some(m.hash) ==> storage.Value() == old(storage.Value()))
    {
      hide World.Lawful, Faithful, RolledBack, NextBatched;
      needReinit := false;
      if state != PREGENESIS {
        var r := UpdateStateForDetach(m, failure);
        needReinit := r != Updated || (state == CATCHING_UP && m.parent == targetBlockHash);
      }
    }

    method BlockAttach(m: Message<B>, seqMismatch: bool, failure: Failure, rpc: Replies)
      returns (ok: bool, confirmed: Option<S>)
      requires Valid() && Truthful(world, m)
      modifies this, storage, manager
      ensures Faithful(world, storage.Committed()) && Faithful(world, storage.Value())
      ensures ok ==> Valid()
      ensures ok <==> !old(AttachFails(m, seqMismatch, failure, rpc))
      // While catching up, only our own messages are for us; otherwise only those that nobody asked for.
      ensures !seqMismatch && m.reqtoken != old(if state == CATCHING_UP then reqToken else "") ==>
        && ok && confirmed.None? && storage.Value() == old(storage.Value()) && Now() == old(Now())
        && state == old(state) && targetBlockHash == old(targetBlockHash) && reqToken == old(reqToken)
      // What is handed on: the state at the current block, exactly while we are up-to-date.
      ensures ok && confirmed.Some? ==> CurrentHash().Some? && confirmed.value == world.StateAt(CurrentHash().value)
      ensures ok ==>
        var handled := !seqMismatch && m.reqtoken == old(if state == CATCHING_UP then reqToken else "");
        confirmed.Some? <==> handled && state == UP_TO_DATE
      // Missed messages and blocks that do not fit change nothing that is stored.
      ensures ok && old(storage.current).Some? && (seqMismatch || old(CurrentHash()) != Some(m.parent)) ==>
        storage.Value() == old(storage.Value())
      ensures var next := !seqMismatch && failure == Never && old(CurrentHash()) == Some(m.parent);
        && (next && old(state) == UP_TO_DATE && m.reqtoken == "" ==> ok && Reached(m.hash) && state == UP_TO_DATE)
        && (next && ok && old(state) == CATCHING_UP && m.reqtoken == old(reqToken) ==> Reached(m.hash))
        && (next && old(state) == CATCHING_UP && m.reqtoken == old(reqToken) && m.hash != old(targetBlockHash) ==>
              ok && state == CATCHING_UP && targetBlockHash == old(targetBlockHash) && reqToken == old(reqToken))
        && (next && ok && old(state) == CATCHING_UP && m.reqtoken == old(reqToken) && m.hash == old(targetBlockHash) ==>
              state == if rpc.bestHash == m.hash then UP_TO_DATE else CATCHING_UP)
      // Before the genesis block, only that block matters.
      ensures !seqMismatch && old(state) == PREGENESIS && m.reqtoken == "" && m.hash != world.genesis ==>
        ok && state == PREGENESIS && storage.Value() == old(storage.Value())
      ensures !seqMismatch && ok && old(state) == PREGENESIS && m.reqtoken == "" && m.hash == world.genesis ==>
          if rpc.blocks < world.height(world.genesis) then state == PREGENESIS else Reached(world.genesis)
    {
      hide World.Lawful, Faithful, FlushFails, ReinitFails, RolledBack, NextBatched;
      confirmed := None;
      if seqMismatch {
        ok := ReinitialiseState(rpc);
        return;
      }
      if !IsReqtokenRelevant(m.reqtoken) {
        return true, None;
      }
      var needReinit := HandleAttach(m, failure);
      ok := true;
      if needReinit {
        ok := ReinitialiseState(rpc);
      }
      if ok {
        FaithfulState(storage.Value());
        confirmed := Confirmed();
      }
    }

    lemma FaithfulState(s: Snapshot<S, U>)
      requires Faithful(world, s)
      ensures s.current.Some? ==>
        world.OnTree(s.current.value.hash) && s.current.value.state == world.StateAt(s.current.value.hash)
    {
    }

    method BlockDetach(m: Message<B>, seqMismatch: bool, failure: Failure, rpc: Replies)
      returns (ok: bool, confirmed: Option<S>)
      requires Valid() && Truthful(world, m)
      modifies this, storage, manager
      ensures Faithful(world, storage.Committed()) && Faithful(world, storage.Value())
      ensures ok ==> Valid()
      ensures ok <==> !old(DetachFails(m, seqMismatch, failure, rpc))
      ensures !seqMismatch && m.reqtoken != old(if state == CATCHING_UP then reqToken else "") ==>
        && ok && confirmed.None? && storage.Value() == old(storage.Value()) && Now() == old(Now())
        && state == old(state) && targetBlockHash == old(targetBlockHash) && reqToken == old(reqToken)
      ensures ok && confirmed.Some? ==> CurrentHash().Some? && confirmed.value == world.StateAt(CurrentHash().value)
      ensures ok ==>
        var handled := !seqMismatch && m.reqtoken == old(if state == CATCHING_UP then reqToken else "");
        confirmed.Some? <==> handled && state == UP_TO_DATE
      ensures ok && old(storage.current).Some? && (seqMismatch || old(CurrentHash()) != Some(m.hash)) ==>
        storage.Value() == old(storage.Value())
      // Detaching the genesis block starts over.
      ensures
        var first := old(CurrentHash()) == Some(m.hash) && m.hash == world.genesis;
        !seqMismatch && ok && first && m.reqtoken == old(if state == CATCHING_UP then reqToken else "") ==>
          if rpc.blocks < world.height(world.genesis) then state == PREGENESIS && storage.Value() == Snapshot(None, map[])
          else Reached(world.genesis)
      ensures var last := !seqMismatch && failure == Never && old(CurrentHash()) == Some(m.hash) && m.hash != world.genesis;
        && (last && old(state) == UP_TO_DATE && m.reqtoken == "" ==> ok && Reached(m.parent) && state == UP_TO_DATE)
        && (last && ok && old(state) == CATCHING_UP && m.reqtoken == old(reqToken) ==> Reached(m.parent))
        && (last && old(state) == CATCHING_UP && m.reqtoken == old(reqToken) && m.parent != old(targetBlockHash) ==>
              ok && state == CATCHING_UP && targetBlockHash == old(targetBlockHash) && reqToken == old(reqToken))
        && (last && ok && old(state) == CATCHING_UP && m.reqtoken == old(reqToken) && m.parent == old(targetBlockHash) ==>
              state == if rpc.bestHash == m.parent then UP_TO_DATE else CATCHING_UP)
      ensures !seqMismatch && old(state) == PREGENESIS ==>
        ok && state == PREGENESIS && storage.Value() == old(storage.Value())
    {
      hide World.Lawful, Faithful, FlushFails, ReinitFails, RolledBack, NextBatched;
      confirmed := None;
      if seqMismatch {
        ok := ReinitialiseState(rpc);
        return;
      }
      if !IsReqtokenRelevant(m.reqtoken) {
        return true, None;
      }
      var needReinit := HandleDetach(m, failure);
      ok := true;
      if needReinit {
        ok := ReinitialiseState(rpc);
      }
      if ok {
        FaithfulState(storage.Value());
        confirmed := Confirmed();
      }
    }
  }

  // ---- Sequences of notifications ----

  /** One block attached to the chain or detached from its tip. */
  datatype Step<B> = Attach(m: Message<B>) | Detach(m: Message<B>)

  /** The block at which the steps lead, if each fits to where the one before led. */
  function LeadsTo<B>(from: Hash, steps: seq<Step<B>>): Option<Hash> {
    if steps == [] then Some(from)
    else
      match (LeadsTo(from, steps[..|steps| - 1]), steps[|steps| - 1])
      case (Some(h), Attach(m)) => if m.parent == h then Some(m.hash) else None
      case (Some(h), Detach(m)) => if m.hash == h then Some(m.parent) else None
      case (None, _) => None
  }

  ghost predicate ArePlain<S, B, U>(world: World<S, B, U>, steps: seq<Step<B>>) {
    forall k :: 0 <= k < |steps| ==>
      Truthful(world, steps[k].m) && steps[k].m.reqtoken == "" && (steps[k].Detach? ==> steps[k].m.hash != world.genesis)
  }

  /** An up-to-date game follows the chain wherever it goes, also through reorganisations. */
  method FollowChain<S(0), B, U>(game: Game<S, B, U>, steps: seq<Step<B>>, rpc: Replies)
    requires game.Valid() && game.state == UP_TO_DATE && ArePlain(game.world, steps)
    requires game.CurrentHash().Some? && LeadsTo(game.CurrentHash().value, steps).Some?
    modifies game, game.storage, game.manager
    ensures game.Valid() && game.state == UP_TO_DATE
    ensures game.Reached(LeadsTo(old(game.CurrentHash().value), steps).value)
  {
    hide World.Lawful, Faithful;
    ghost var start := game.CurrentHash().value;
    for i := 0 to |steps|
      invariant game.Valid() && game.state == UP_TO_DATE
      invariant LeadsTo(start, steps[..i]).Some? && game.CurrentHash() == LeadsTo(start, steps[..i])
      invariant i > 0 ==> game.Reached(LeadsTo(start, steps[..i]).value)
    {
      StepFits(start, steps, i);
      var ok, confirmed;
      match steps[i] {
        case Attach(m) => ok, confirmed := game.BlockAttach(m, false, Never, rpc);
        case Detach(m) => ok, confirmed := game.BlockDetach(m, false, Never, rpc);
      }
    }
    assert steps[..|steps|] == steps;
    game.FaithfulState(game.storage.Value());
  }

  lemma {:induction false} StepFits<B>(from: Hash, steps: seq<Step<B>>, i: nat)
    requires i < |steps| && LeadsTo(from, steps).Some?
    ensures LeadsTo(from, steps[..i]).Some? && LeadsTo(from, steps[..i + 1]).Some?
    ensures var h := LeadsTo(from, steps[..i]).value;
      match steps[i]
      case Attach(m) => m.parent == h && LeadsTo(from, steps[..i + 1]) == Some(m.hash)
      case Detach(m) => m.hash == h && LeadsTo(from, steps[..i + 1]) == Some(m.parent)
    decreases |steps|
  {
    assert steps[..i + 1][..i] == steps[..i];
    if i + 1 == |steps| {
      assert steps[..i + 1] == steps;
    } else {
      var m := |steps| - 1;
      StepFits(from, steps[..m], i);
      assert steps[..m][..i] == steps[..i] && steps[..m][..i + 1] == steps[..i + 1];
    }
  }

  /** A game that is catching up arrives at its target, if it gets the messages it asked for. */
  method CatchUp<S(0), B, U>(game: Game<S, B, U>, ms: seq<Message<B>>, rpc: Replies) returns (ok: bool)
    requires game.Valid() && game.state == CATCHING_UP && ms != [] && game.CurrentHash().Some?
    requires forall k :: 0 <= k < |ms| ==> Truthful(game.world, ms[k]) && ms[k].reqtoken == game.reqToken
    requires ms[0].parent == game.CurrentHash().value && forall k :: 0 < k < |ms| ==> ms[k].parent == ms[k - 1].hash
    requires forall k :: 0 <= k < |ms| ==> (ms[k].hash == game.targetBlockHash <==> k == |ms| - 1)
    modifies game, game.storage, game.manager
    ensures ok ==> game.Valid() && game.Reached(ms[|ms| - 1].hash)
    ensures ok ==> game.state == if rpc.bestHash == ms[|ms| - 1].hash then UP_TO_DATE else CATCHING_UP
    ensures !ok ==> rpc.flushFails
  {
    hide World.Lawful, Faithful;
    var last := |ms| - 1;
    var confirmed;
    for i := 0 to last
      invariant game.Valid() && game.state == CATCHING_UP
      invariant game.targetBlockHash == old(game.targetBlockHash) && game.reqToken == old(game.reqToken)
      invariant game.CurrentHash() == Some(ms[i].parent)
    {
      ok, confirmed := game.BlockAttach(ms[i], false, Never, rpc);
    }
    ok, confirmed := game.BlockAttach(ms[last], false, Never, rpc);
  }
}
