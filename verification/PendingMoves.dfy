/** Tracking pending moves on top of the confirmed state (xayagame/pendingmoves.cpp). */
module PendingProcessors {
  import opened Wrappers
  import Tokens
  import TokenProofs

  const BLOCK_QUEUE_SIZE := 100

  type Txid = string

  datatype PendingMove<M> = PendingMove(txid: Txid, move: M)

  /** The metadata of a block notification; extra stands for everything else in it. */
  datatype BlockMeta = BlockMeta(hash: string, parent: string, extra: string)

  /** A game's pending state: empty, or with one more move on a confirmed state and block. */
  datatype Callbacks<!V, !S, !M> = Callbacks(empty: V, add: (V, S, BlockMeta, M) -> V)

  /** One call of the game's callback. */
  datatype Call<S, M> = Call(state: S, block: BlockMeta, pending: PendingMove<M>)

  function Fold<V, S, M>(cb: Callbacks<V, S, M>, calls: seq<Call<S, M>>): V {
    if calls == [] then cb.empty
    else
      var last := calls[|calls| - 1];
      cb.add(Fold(cb, calls[..|calls| - 1]), last.state, last.block, last.pending.move)
  }

  /** The known moves among the mempool's transactions, in the mempool's order. */
  function KnownMoves<M>(known: map<Txid, M>, mempool: seq<Txid>): seq<PendingMove<M>> {
    if mempool == [] then []
    else
      var txid := mempool[|mempool| - 1];
      KnownMoves(known, mempool[..|mempool| - 1]) + (if txid in known then [PendingMove(txid, known[txid])] else [])
  }

  function CallsFor<S, M>(state: S, block: BlockMeta, moves: seq<PendingMove<M>>): seq<Call<S, M>> {
    seq(|moves|, k requires 0 <= k < |moves| => Call(state, block, moves[k]))
  }

  predicate Distinct(txids: seq<Txid>) {
    forall j, k :: 0 <= j < k < |txids| ==> txids[j] != txids[k]
  }

  /** No transaction is passed to the callback twice. */
  predicate OnceEach<S, M>(calls: seq<Call<S, M>>) {
    forall j, k :: 0 <= j < k < |calls| ==> calls[j].pending.txid != calls[k].pending.txid
  }

  /** The queue with one more block; a queue that does not lead to the block is dropped. */
  function Followed(queue: seq<BlockMeta>, block: BlockMeta): seq<BlockMeta> {
    if queue != [] && queue[|queue| - 1].hash != block.parent then [block] else queue + [block]
  }

  /** The newest blocks, as many as are kept. */
  function Newest(queue: seq<BlockMeta>): seq<BlockMeta> {
    if |queue| > BLOCK_QUEUE_SIZE then queue[|queue| - BLOCK_QUEUE_SIZE..] else queue
  }

  lemma FollowedIsLinked(queue: seq<BlockMeta>, block: BlockMeta)
    requires Linked(queue)
    ensures var q := Newest(Followed(queue, block));
      Linked(q) && 0 < |q| <= BLOCK_QUEUE_SIZE && q[|q| - 1] == block
    ensures Followed(queue, block) ==
      (if queue != [] && queue[|queue| - 1].hash != block.parent then [] else queue) + [block]
  {
  }

  predicate Linked(queue: seq<BlockMeta>) {
    forall k :: 0 < k < |queue| ==> queue[k].parent == queue[k - 1].hash
  }

  predicate Passes<S, M>(calls: seq<Call<S, M>>, txid: Txid) {
    exists k :: 0 <= k < |calls| && calls[k].pending.txid == txid
  }

  /** The calls pass exactly the known moves. */
  ghost predicate Covers<S, M>(calls: seq<Call<S, M>>, known: map<Txid, M>) {
    && (forall k :: 0 <= k < |calls| ==>
          calls[k].pending.txid in known && known[calls[k].pending.txid] == calls[k].pending.move)
    && (forall txid :: txid in known ==> Passes(calls, txid))
  }

  /** Moves that were not known before, as a detached block adds them. */
  function AddAll<M>(known: map<Txid, M>, moves: seq<PendingMove<M>>): map<Txid, M> {
    if moves == [] then known
    else
      var before, last := AddAll(known, moves[..|moves| - 1]), moves[|moves| - 1];
      if last.txid in before then before else before[last.txid := last.move]
  }

  /** The moves of the block are known afterwards, with what was known before, and nothing else. */
  lemma {:induction false} AddAllKnows<M>(known: map<Txid, M>, moves: seq<PendingMove<M>>)
    ensures var t := AddAll(known, moves);
      && (forall txid :: txid in known ==> txid in t && t[txid] == known[txid])
      && (forall k :: 0 <= k < |moves| ==> moves[k].txid in t)
      && (forall txid :: txid in t && txid !in known ==>
            exists k :: 0 <= k < |moves| && moves[k] == PendingMove(txid, t[txid]))
  {
    if moves != [] {
      var m := |moves| - 1;
      AddAllKnows(known, moves[..m]);
      var before, t := AddAll(known, moves[..m]), AddAll(known, moves);
      forall txid | txid in t && txid !in known
        ensures exists k :: 0 <= k < |moves| && moves[k] == PendingMove(txid, t[txid])
      {
        if txid in before {
          var k :| 0 <= k < m && moves[..m][k] == PendingMove(txid, before[txid]);
          assert moves[k] == PendingMove(txid, t[txid]);
        } else {
          assert moves[m] == PendingMove(txid, t[txid]);
        }
      }
    }
  }

  /** The queue after a number of attached blocks. */
  function AfterAttaches(queue: seq<BlockMeta>, blocks: seq<BlockMeta>): seq<BlockMeta> {
    if blocks == [] then queue
    else Newest(Followed(AfterAttaches(queue, blocks[..|blocks| - 1]), blocks[|blocks| - 1]))
  }

  /** After n attached blocks, each on top of the one before, the queue holds the last n of them, but 100 at most. */
  lemma {:induction false} QueueHoldsNewest(blocks: seq<BlockMeta>)
    requires forall k :: 0 < k < |blocks| ==> blocks[k].parent == blocks[k - 1].hash
    ensures AfterAttaches([], blocks) == if |blocks| <= 100 then blocks else blocks[|blocks| - 100..]
  {
    hide Newest, Followed;
    if blocks != [] {
      var m := |blocks| - 1;
      assert m > 100 ==> blocks[..m][m - 100..] == blocks[m - 100..m];
      QueueHoldsNewest(blocks[..|blocks| - 1]);
      OneMoreAttached(blocks);
    }
  }

  lemma OneMoreAttached(blocks: seq<BlockMeta>)
    requires blocks != [] && forall k :: 0 < k < |blocks| ==> blocks[k].parent == blocks[k - 1].hash
    ensures var m := |blocks| - 1;
      Newest(Followed(if m <= 100 then blocks[..m] else blocks[m - 100..m], blocks[m]))
      == if |blocks| <= 100 then blocks else blocks[|blocks| - 100..]
  {
    var m := |blocks| - 1;
    if m <= 100 {
      assert blocks[..m] + [blocks[m]] == blocks;
    } else {
      assert blocks[m - 100..m] + [blocks[m]] == blocks[m - 100..];
      assert blocks[m - 100..][1..] == blocks[m - 99..];
    }
  }

  function Restricted<M>(known: map<Txid, M>, mempool: seq<Txid>): map<Txid, M> {
    map txid | txid in known && txid in mempool :: known[txid]
  }

  lemma {:induction false} OnlyKnownMoves<M>(known: map<Txid, M>, mempool: seq<Txid>)
    ensures forall k :: 0 <= k < |KnownMoves(known, mempool)| ==>
      var mv := KnownMoves(known, mempool)[k];
      mv.txid in mempool && mv.txid in known && mv.move == known[mv.txid]
  {
    if mempool != [] {
      var m := |mempool| - 1;
      var before, moves := KnownMoves(known, mempool[..m]), KnownMoves(known, mempool);
      OnlyKnownMoves(known, mempool[..m]);
      forall k | 0 <= k < |moves|
        ensures moves[k].txid in mempool && moves[k].txid in known && moves[k].move == known[moves[k].txid]
      {
        if k < |before| {
          assert moves[k] == before[k];
          assert before[k].txid in mempool[..m];
        }
      }
    }
  }

  lemma {:induction false} NoMoveTwice<M>(known: map<Txid, M>, mempool: seq<Txid>)
    requires Distinct(mempool)
    ensures forall j, k :: 0 <= j < k < |KnownMoves(known, mempool)| ==>
      KnownMoves(known, mempool)[j].txid != KnownMoves(known, mempool)[k].txid
  {
    if mempool != [] {
      var m := |mempool| - 1;
      NoMoveTwice(known, mempool[..m]);
      OnlyKnownMoves(known, mempool[..m]);
    }
  }

  lemma {:induction false} NoMoveMissed<M>(known: map<Txid, M>, mempool: seq<Txid>, i: nat) returns (k: nat)
    requires i < |mempool| && mempool[i] in known
    ensures k < |KnownMoves(known, mempool)| && KnownMoves(known, mempool)[k].txid == mempool[i]
    decreases |mempool|
  {
    var m := |mempool| - 1;
    if i == m {
      k := |KnownMoves(known, mempool)| - 1;
    } else {
      k := NoMoveMissed(known, mempool[..m], i);
    }
  }

  /** They come in the order of the mempool. */
  lemma {:induction false} InMempoolOrder<M>(
      known: map<Txid, M>, mempool: seq<Txid>, j: nat, k: nat, p: nat, q: nat)
    requires Distinct(mempool) && j < k < |KnownMoves(known, mempool)| && p < |mempool| && q < |mempool|
    requires KnownMoves(known, mempool)[j].txid == mempool[p] && KnownMoves(known, mempool)[k].txid == mempool[q]
    ensures p < q
    decreases |mempool|
  {
    var m := |mempool| - 1;
    var before := KnownMoves(known, mempool[..m]);
    OnlyKnownMoves(known, mempool[..m]);
    if k < |before| {
      var r :| 0 <= r < m && mempool[..m][r] == before[k].txid;
      var s :| 0 <= s < m && mempool[..m][s] == before[j].txid;
      assert r == q && s == p;
      InMempoolOrder(known, mempool[..m], j, k, p, q);
    } else {
      var s :| 0 <= s < m && mempool[..m][s] == before[j].txid;
      assert s == p && q == m;
    }
  }

  lemma ResetCovers<S, M>(state: S, block: BlockMeta, known: map<Txid, M>, mempool: seq<Txid>)
    requires Distinct(mempool)
    ensures var calls := CallsFor(state, block, KnownMoves(known, mempool));
      OnceEach(calls) && Covers(calls, Restricted(known, mempool))
  {
    var calls := CallsFor(state, block, KnownMoves(known, mempool));
    OnlyKnownMoves(known, mempool);
    NoMoveTwice(known, mempool);
    forall txid | txid in Restricted(known, mempool) ensures Passes(calls, txid) {
      var i :| 0 <= i < |mempool| && mempool[i] == txid;
      var k := NoMoveMissed(known, mempool, i);
      assert calls[k].pending.txid == txid;
    }
  }

  /** What the transaction at the given place in the mempool adds. */
  lemma ResetStep<S, M>(state: S, block: BlockMeta, known: map<Txid, M>, mempool: seq<Txid>, i: nat)
    requires i < |mempool|
    ensures var txid := mempool[i];
      var calls := CallsFor(state, block, KnownMoves(known, mempool[..i]));
      if txid in known then
        && Restricted(known, mempool[..i + 1]) == Restricted(known, mempool[..i])[txid := known[txid]]
        && CallsFor(state, block, KnownMoves(known, mempool[..i + 1])) ==
           calls + [Call(state, block, PendingMove(txid, known[txid]))]
      else
        && Restricted(known, mempool[..i + 1]) == Restricted(known, mempool[..i])
        && CallsFor(state, block, KnownMoves(known, mempool[..i + 1])) == calls
  {
    assert mempool[..i + 1][..i] == mempool[..i];
    assert mempool[..i + 1] == mempool[..i] + [mempool[i]];
  }

  lemma OneMoreCovers<S, M>(calls: seq<Call<S, M>>, known: map<Txid, M>, call: Call<S, M>)
    requires OnceEach(calls) && Covers(calls, known) && call.pending.txid !in known
    ensures OnceEach(calls + [call]) && Covers(calls + [call], known[call.pending.txid := call.pending.move])
  {
    var all, after := calls + [call], known[call.pending.txid := call.pending.move];
    forall txid | txid in after ensures Passes(all, txid) {
      if txid == call.pending.txid {
        assert all[|calls|].pending.txid == txid;
      } else {
        assert Passes(calls, txid);
        var k :| 0 <= k < |calls| && calls[k].pending.txid == txid;
        assert all[k].pending.txid == txid;
      }
    }
  }

  lemma FoldNext<V, S, M>(cb: Callbacks<V, S, M>, calls: seq<Call<S, M>>, call: Call<S, M>)
    ensures Fold(cb, calls + [call]) == cb.add(Fold(cb, calls), call.state, call.block, call.pending.move)
  {
    assert (calls + [call])[..|calls|] == calls;
  }

  lemma NothingReset<S, M>(state: S, block: BlockMeta, known: map<Txid, M>)
    ensures Restricted(known, []) == map[] && CallsFor(state, block, KnownMoves(known, [])) == []
    ensures OnceEach<S, M>([])
  {
  }

  lemma CallsOnBlock<S, M>(state: S, block: BlockMeta, moves: seq<PendingMove<M>>)
    ensures forall k :: 0 <= k < |CallsFor(state, block, moves)| ==> CallsFor(state, block, moves)[k].block == block
  {
  }

  class PendingMoveProcessor<!V(0), !S, !M> {
    const callbacks: Callbacks<V, S, M>
    var view: V
    var pending: map<Txid, M>
    var blockQueue: seq<BlockMeta>
    /** The callback's calls since the pending state was last cleared. */
    ghost var calls: seq<Call<S, M>>

    constructor (callbacks: Callbacks<V, S, M>)
      ensures this.callbacks == callbacks && Valid() && blockQueue == [] && pending == map[]
    {
      this.callbacks := callbacks;
      view, pending, blockQueue, calls := callbacks.empty, map[], [], [];
    }

    /** The view is the fold of the calls, each on the last block of the queue and each move once. */
    ghost predicate ViewRight()
      reads this
    {
      && view == Fold(callbacks, calls)
      && OnceEach(calls)
      && (if blockQueue == [] then calls == []
          else Covers(calls, pending) && forall k :: 0 <= k < |calls| ==> calls[k].block == blockQueue[|blockQueue| - 1])
    }

    ghost predicate Valid()
      reads this
    {
      |blockQueue| <= BLOCK_QUEUE_SIZE && Linked(blockQueue) && ViewRight()
    }

    /** Clears the view and rebuilds it from the known moves in the mempool. */
    method Reset(state: S, mempool: seq<Txid>)
      requires |blockQueue| <= BLOCK_QUEUE_SIZE && Linked(blockQueue) && Distinct(mempool)
      modifies this`view, this`pending, this`calls
      ensures Valid() && pending == Restricted(old(pending), mempool)
      ensures calls ==
        if blockQueue == [] then []
        else CallsFor(state, blockQueue[|blockQueue| - 1], KnownMoves(old(pending), mempool))
    {
      hide Restricted, KnownMoves, CallsFor, Covers, OnceEach, Linked;
      view, calls := callbacks.empty, [];
      var newPending: map<Txid, M> := map[];
      ghost var block := if blockQueue == [] then BlockMeta("", "", "") else blockQueue[|blockQueue| - 1];
      NothingReset(state, block, pending);
      for i := 0 to |mempool|
        invariant newPending == Restricted(pending, mempool[..i]) && pending == old(pending)
        invariant view == Fold(callbacks, calls)
        invariant calls ==
          if blockQueue == [] then [] else CallsFor(state, block, KnownMoves(pending, mempool[..i]))
      {
        var txid := mempool[i];
        ResetStep(state, block, pending, mempool, i);
        if txid in pending {
          newPending := newPending[txid := pending[txid]];
          if blockQueue != [] {
            ghost var call := Call(state, block, PendingMove(txid, pending[txid]));
            FoldNext(callbacks, calls, call);
            view := callbacks.add(view, state, blockQueue[|blockQueue| - 1], pending[txid]);
            calls := calls + [call];
          }
        }
      }
      assert mempool[..|mempool|] == mempool;
      ResetCovers(state, block, pending, mempool);
      CallsOnBlock(state, block, KnownMoves(pending, mempool));
      pending := newPending;
    }

    /** Drops the oldest blocks while the queue is too long. */
    method TrimQueue()
      modifies this`blockQueue
      ensures blockQueue == Newest(old(blockQueue))
    {
      hide Linked;
      while |blockQueue| > BLOCK_QUEUE_SIZE
        invariant |blockQueue| <= |old(blockQueue)|
        invariant blockQueue == old(blockQueue)[|old(blockQueue)| - |blockQueue|..]
        invariant |old(blockQueue)| <= BLOCK_QUEUE_SIZE ==> blockQueue == old(blockQueue)
        invariant |old(blockQueue)| > BLOCK_QUEUE_SIZE ==> |blockQueue| >= BLOCK_QUEUE_SIZE
      {
        blockQueue := blockQueue[1..];
      }
    }

    method ProcessAttachedBlock(state: S, block: BlockMeta, mempool: seq<Txid>)
      requires Valid() && Distinct(mempool)
      modifies this
      ensures Valid() && pending == Restricted(old(pending), mempool)
      ensures blockQueue == Newest(Followed(old(blockQueue), block))
      ensures blockQueue != [] && blockQueue[|blockQueue| - 1] == block
      ensures calls == CallsFor(state, block, KnownMoves(old(pending), mempool))
    {
      hide ViewRight, Fold, Linked, Newest, Restricted, KnownMoves, CallsFor, Followed;
      FollowedIsLinked(blockQueue, block);
      if blockQueue != [] && blockQueue[|blockQueue| - 1].hash != block.parent {
        blockQueue := [];
      }
      blockQueue := blockQueue + [block];
      assert blockQueue == Followed(old(blockQueue), block);
      TrimQueue();
      Reset(state, mempool);
    }

    /** The block's moves become known again; it leaves the queue if it is the last there. */
    method ProcessDetachedBlock(state: S, block: BlockMeta, moves: seq<PendingMove<M>>, mempool: seq<Txid>)
      requires Valid() && Distinct(mempool)
      modifies this
      ensures Valid() && pending == Restricted(AddAll(old(pending), moves), mempool)
      ensures blockQueue ==
        if old(blockQueue) != [] && old(blockQueue[|blockQueue| - 1]) == block
        then old(blockQueue)[..|old(blockQueue)| - 1] else []
      ensures blockQueue != [] ==>
        calls == CallsFor(state, blockQueue[|blockQueue| - 1], KnownMoves(AddAll(old(pending), moves), mempool))
      ensures PassesAllOf(old(pending), moves, mempool)
    {
      hide Covers, OnceEach, Fold, KnownMoves, CallsFor, PassesAllOf;
      for i := 0 to |moves|
        invariant pending == AddAll(old(pending), moves[..i]) && blockQueue == old(blockQueue)
      {
        assert moves[..i + 1][..i] == moves[..i];
        if moves[i].txid !in pending {
          pending := pending[moves[i].txid := moves[i].move];
        }
      }
      assert moves[..|moves|] == moves;
      if blockQueue != [] {
        if blockQueue[|blockQueue| - 1] == block {
          blockQueue := blockQueue[..|blockQueue| - 1];
        } else {
          blockQueue := [];
        }
      }
      Reset(state, mempool);
      DetachedIsPassed(old(pending), moves, mempool);
    }

    /** What was known or is in the block, and is still in the mempool, is passed on, and nothing else. */
    ghost predicate PassesAllOf(was: map<Txid, M>, moves: seq<PendingMove<M>>, mempool: seq<Txid>)
      reads this
    {
      && (forall k :: 0 <= k < |moves| && moves[k].txid in mempool ==> IsPassed(moves[k].txid))
      && (forall txid :: txid in was && txid in mempool ==> IsPassed(txid) && pending[txid] == was[txid])
      && (forall txid :: txid in pending ==>
            txid in mempool
            && (txid in was || exists k :: 0 <= k < |moves| && moves[k] == PendingMove(txid, pending[txid])))
    }

    lemma DetachedIsPassed(was: map<Txid, M>, moves: seq<PendingMove<M>>, mempool: seq<Txid>)
      requires Valid() && pending == Restricted(AddAll(was, moves), mempool)
      ensures PassesAllOf(was, moves, mempool)
    {
      hide Fold, OnceEach, Linked;
      AddAllKnows(was, moves);
    }

    /** The move is known, and while there is a block to build on, it is one of those passed on. */
    ghost predicate IsPassed(txid: Txid)
      reads this
    {
      txid in pending && (blockQueue != [] ==> Passes(calls, txid))
    }

    /** A move is added to the view when it is first seen, on top of all moves before it. */
    method ProcessMove(state: S, mv: PendingMove<M>)
      requires Valid()
      modifies this`view, this`pending, this`calls
      ensures Valid()
      ensures pending == if mv.txid in old(pending) then old(pending) else old(pending)[mv.txid := mv.move]
      ensures calls ==
        if mv.txid in old(pending) || blockQueue == [] then old(calls)
        else old(calls) + [Call(state, blockQueue[|blockQueue| - 1], mv)]
    {
      hide Covers, OnceEach, Linked, Fold;
      if mv.txid in pending {
        return;
      }
      if blockQueue != [] {
        var block := blockQueue[|blockQueue| - 1];
        OneMoreCovers(calls, pending, Call(state, block, mv));
        FoldNext(callbacks, calls, Call(state, block, mv));
        view := callbacks.add(view, state, block, mv.move);
        calls := calls + [Call(state, block, mv)];
      }
      pending := pending[mv.txid := mv.move];
    }
  }

  // ---- Pending asset moves ----

  /** The callbacks of the asset game (nonfungible/pending.cpp) on its overlay. */
  const TOKENS: Callbacks<Tokens.Overlay, Tokens.Db, Tokens.Move> :=
    Callbacks(Tokens.NO_CHANGES, (p: Tokens.Overlay, db: Tokens.Db, block: BlockMeta, mv: Tokens.Move) =>
      Tokens.PendingOperations(db, p, mv.name, Tokens.Operations(mv.data)))

  function MovesOf<S, M>(calls: seq<Call<S, M>>): seq<M> {
    seq(|calls|, k requires 0 <= k < |calls| => calls[k].pending.move)
  }

  /** On one confirmed state, the asset game's view is the state after all moves passed to it. */
  lemma {:induction false} TokenViewAgrees(calls: seq<Call<Tokens.Db, Tokens.Move>>, db: Tokens.Db)
    requires forall k :: 0 <= k < |calls| ==> calls[k].state == db
    ensures Fold(TOKENS, calls) == Tokens.PendingMoves(db, Tokens.NO_CHANGES, MovesOf(calls))
    ensures TokenProofs.Agrees(db, Fold(TOKENS, calls), Tokens.ApplyMoves(db, MovesOf(calls)))
  {
    hide Tokens.PendingOperations, TokenProofs.Agrees, Tokens.ApplyMoves;
    if calls != [] {
      var m := |calls| - 1;
      assert MovesOf(calls)[..m] == MovesOf(calls[..m]);
      TokenViewAgrees(calls[..m], db);
    }
    TokenProofs.OverlayAgrees(db, MovesOf(calls));
  }
}
