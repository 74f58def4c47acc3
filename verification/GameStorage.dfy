/**
 * The storage of a game with its cached height, and the batching of transactions on it
 * (xayagame/storage.hpp, heightcache.hpp, heightcache.cpp, transactionmanager.cpp).
 */
module GameStorage {
  import opened Wrappers
  import opened BlockTrees

  datatype Stored<S> = Stored(hash: Hash, state: S)

  /** Everything that the storage keeps on disk. */
  datatype Snapshot<S, U> = Snapshot(current: Option<Stored<S>>, undo: map<Hash, U>)

  /** The states are those at their blocks, and all undo data needed to go back is there. */
  ghost predicate Faithful<S, B, U>(w: World<S, B, U>, s: Snapshot<S, U>) {
    && (s.current.Some? ==>
          && w.OnTree(s.current.value.hash)
          && s.current.value.state == w.StateAt(s.current.value.hash)
          && w.Covers(s.undo, s.current.value.hash))
    && (forall h :: h in s.undo ==> w.OnTree(h) && h != w.genesis && s.undo[h] == w.UndoAt(h))
  }

  /** When a storage operation of a transaction throws, if any does. */
  datatype Failure = Never | AtFirstWrite | AtSecondWrite | AtCommit

  class Storage<!S(0), !B, !U> {
    /** Whether released undo data is really deleted, which an implementation may choose. */
    const releases: bool
    const world: World<S, B, U>
    var current: Option<Stored<S>>
    var undo: map<Hash, U>
    var hasHeight: bool
    var cachedHeight: nat
    var startedTxn: bool
    /** What a rollback of the open transaction returns to. */
    var saved: Snapshot<S, U>

    constructor (world: World<S, B, U>, releases: bool)
      ensures this.world == world && this.releases == releases
      ensures Value() == Snapshot(None, map[]) && !startedTxn && !hasHeight
    {
      this.world, this.releases := world, releases;
      current, undo, hasHeight, startedTxn := None, map[], false, false;
      saved := Snapshot(None, map[]);
    }

    ghost function Value(): Snapshot<S, U>
      reads this
    {
      Snapshot(current, undo)
    }

    /** What survives if the open transaction, if any, is rolled back. */
    ghost function Committed(): Snapshot<S, U>
      reads this
    {
      if startedTxn then saved else Value()
    }

    ghost predicate HeightRight()
      reads this
    {
      hasHeight && current.Some? ==> cachedHeight == world.height(current.value.hash)
    }

    method Clear()
      requires !startedTxn
      modifies this
      ensures Value() == Snapshot(None, map[]) && !startedTxn && !hasHeight
    {
      hasHeight := false;
      current, undo := None, map[];
    }

    method SetCurrentGameStateWithHeight(hash: Hash, height: nat, data: S)
      requires startedTxn
      modifies this`current, this`hasHeight, this`cachedHeight
      ensures current == Some(Stored(hash, data)) && hasHeight && cachedHeight == height
    {
      current := Some(Stored(hash, data));
      hasHeight := true;
      cachedHeight := height;
    }

    /** The height of the current block, from the cache or by asking the daemon. */
    method GetCurrentBlockHashWithHeight() returns (r: Option<(Hash, nat)>)
      requires HeightRight()
      modifies this`hasHeight, this`cachedHeight
      ensures HeightRight()
      ensures r == if current.Some? then Some((current.value.hash, world.height(current.value.hash))) else None
    {
      if current.None? {
        return None;
      }
      if !hasHeight {
        cachedHeight := world.height(current.value.hash);
        hasHeight := true;
      }
      r := Some((current.value.hash, cachedHeight));
    }

    /** SQLite and LMDB storage overwrite an entry, memory storage keeps it; both are the same data. */
    method AddUndoData(hash: Hash, data: U)
      requires startedTxn
      modifies this`undo
      ensures undo == old(undo)[hash := data]
    {
      undo := undo[hash := data];
    }

    method ReleaseUndoData(hash: Hash)
      requires startedTxn
      modifies this`undo
      ensures undo == if releases then old(undo) - {hash} else old(undo)
    {
      if releases {
        undo := undo - {hash};
      }
    }

    method BeginTransaction()
      requires !startedTxn
      modifies this`startedTxn, this`saved
      ensures startedTxn && Committed() == old(Committed())
    {
      saved := Snapshot(current, undo);
      startedTxn := true;
    }

    method CommitTransaction()
      requires startedTxn
      modifies this`startedTxn
      ensures !startedTxn
    {
      startedTxn := false;
    }

    method RollbackTransaction()
      requires startedTxn
      modifies this
      ensures Value() == old(Committed()) && !startedTxn && !hasHeight
    {
      hasHeight := false;
      current, undo := saved.current, saved.undo;
      startedTxn := false;
    }
  }

  /** Batches transactions while a game catches up. */
  class TransactionManager<!S(0), !B, !U> {
    const storage: Storage<S, B, U>
    var batchSize: nat
    var batchedCommits: nat
    var inTransaction: bool
    var commitFailed: bool

    constructor (storage: Storage<S, B, U>)
      requires !storage.startedTxn
      ensures this.storage == storage && Idle()
    {
      this.storage := storage;
      batchSize, batchedCommits, inTransaction, commitFailed := 1, 0, false, false;
    }

    /** Between transactions: the storage's one is open exactly while commits are batched. */
    ghost predicate Idle()
      reads this, storage
    {
      !inTransaction && !commitFailed && batchSize >= 1 && (storage.startedTxn <==> batchedCommits > 0)
    }

    /** Commits the batch; if the storage throws, the cleanup has still to roll it back. */
    method Flush(fails: bool) returns (ok: bool)
      requires Idle()
      modifies this`batchedCommits, this`commitFailed, storage`startedTxn
      ensures ok <==> !(fails && old(batchedCommits) > 0)
      ensures ok ==> Idle() && batchedCommits == 0
      ensures !ok ==> commitFailed && storage.startedTxn && batchedCommits == old(batchedCommits)
      ensures !ok ==> storage.Committed() == old(storage.Committed())
    {
      if batchedCommits > 0 {
        if fails {
          commitFailed := true;
          return false;
        }
        storage.CommitTransaction();
        batchedCommits := 0;
      }
      ok := true;
    }

    method SetBatchSize(size: nat, fails: bool) returns (ok: bool)
      requires Idle() && size >= 1
      modifies this`batchSize, this`batchedCommits, this`commitFailed, storage`startedTxn
      ensures ok ==> Idle() && batchSize == size
      ensures ok <==> !(fails && old(batchedCommits) > 0 && old(batchedCommits) >= size)
      ensures ok ==> batchedCommits == if old(batchedCommits) >= size then 0 else old(batchedCommits)
      ensures !ok ==> storage.Committed() == old(storage.Committed())
      ensures storage.Committed() == storage.Value() || storage.Committed() == old(storage.Committed())
    {
      batchSize := size;
      if batchedCommits >= batchSize {
        ok := Flush(fails);
      } else {
        ok := true;
      }
    }

    method BeginTransaction()
      requires Idle()
      modifies this`inTransaction, storage`startedTxn, storage`saved
      ensures inTransaction && storage.startedTxn
      ensures storage.Committed() == old(storage.Committed())
    {
      inTransaction := true;
      if batchedCommits == 0 {
        storage.BeginTransaction();
      }
    }

    method CommitTransaction(fails: bool) returns (ok: bool)
      requires inTransaction && !commitFailed && batchSize >= 1 && storage.startedTxn
      modifies this`inTransaction, this`batchedCommits, this`commitFailed, storage`startedTxn
      ensures ok ==> Idle() && (storage.Committed() == storage.Value() || storage.Committed() == old(storage.Committed()))
      ensures ok <==> !(fails && old(batchedCommits) + 1 >= batchSize)
      ensures ok ==> batchedCommits == if old(batchedCommits) + 1 >= batchSize then 0 else old(batchedCommits) + 1
      ensures !ok ==> !inTransaction && commitFailed && storage.startedTxn
      ensures !ok ==> storage.Committed() == old(storage.Committed())
    {
      inTransaction := false;
      batchedCommits := batchedCommits + 1;
      if batchedCommits >= batchSize {
        ok := Flush(fails);
      } else {
        ok := true;
      }
    }

    method RollbackTransaction()
      requires (inTransaction || commitFailed) && batchSize >= 1 && storage.startedTxn
      modifies this, storage
      ensures Idle() && batchSize == old(batchSize) && batchedCommits == 0
      ensures storage.Value() == old(storage.Committed()) && !storage.startedTxn && !storage.hasHeight
    {
      inTransaction, commitFailed := false, false;
      storage.RollbackTransaction();
      batchedCommits := 0;
    }

    /** Afterwards no transaction is open; what was not committed yet is lost. */
    method TryAbortTransaction()
      requires Idle()
      modifies this, storage
      ensures Idle() && batchSize == old(batchSize) && batchedCommits == 0 && !storage.startedTxn
      ensures storage.Value() == old(storage.Committed())
    {
      if inTransaction || commitFailed || batchedCommits > 0 {
        storage.RollbackTransaction();
      }
      inTransaction, commitFailed := false, false;
      batchedCommits := 0;
    }
  }
}
