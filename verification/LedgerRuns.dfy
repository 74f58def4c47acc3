/**
 * Blocks of the Battleships ledger and sequences of them (ships/logic.cpp): expired disputes,
 * timed-out channels, and the books of won, lost, created and closed channels.
 */
module LedgerRuns {
  import opened Wrappers
  import opened Counting
  import opened Channels
  import opened StateProofs
  import opened ChannelGames
  import opened ShipsLedger

  /** The order in which a query lists its results: each of them once. */
  predicate IsListing(ids: seq<ChannelId>, s: set<ChannelId>) {
    && Elems(ids) == s
    && (forall j, k :: 0 <= j < k < |ids| ==> ids[j] != ids[k])
  }

  function Elems(ids: seq<ChannelId>): set<ChannelId> {
    set id | id in ids
  }

  // ---- Expired disputes ----

  /** The source subtracts on 32-bit unsigned numbers without a guard. */
  function ExpiryThreshold(height: Unsigned): Unsigned {
    (height - DISPUTE_BLOCKS) % 0x1_0000_0000
  }

  function Expired(st: State, height: Unsigned): set<ChannelId> {
    set id | id in st.channels && st.channels[id].disputeHeight.Some?
      && st.channels[id].disputeHeight.value <= ExpiryThreshold(height)
  }

  /** What the source CHECKs before it closes a channel for an expired dispute. */
  ghost predicate Expirable<P>(rules: Rules<P>, channels: map<ChannelId, Row>, id: ChannelId) {
    && id in channels && |channels[id].meta.participants| == 2
    && var c := ContextOf(rules, id, channels[id]);
       var s := Load(channels[id]).LatestState();
       c.Parse(s).Some? && 0 <= c.env.whoseTurn(c.Parse(s).value) <= 1
  }

  /** The player on turn, who loses if the dispute expires. */
  ghost function OnTurn<P>(rules: Rules<P>, channels: map<ChannelId, Row>, id: ChannelId): Player
    requires Expirable(rules, channels, id)
  {
    var c := ContextOf(rules, id, channels[id]);
    c.env.whoseTurn(c.Parse(Load(channels[id]).LatestState()).value)
  }

  ghost function ExpireAll<P>(rules: Rules<P>, st: State, ids: seq<ChannelId>): (t: State)
    requires IsListing(ids, Elems(ids)) && forall id :: id in ids ==> Expirable(rules, st.channels, id)
    ensures t.channels == st.channels - Elems(ids) && t.extra == st.extra - Elems(ids)
  {
    if ids == [] then st
    else
      var m := |ids| - 1;
      var before := ExpireAll(rules, st, ids[..m]);
      assert Elems(ids) == Elems(ids[..m]) + {ids[m]};
      Close(before, ids[m], 1 - OnTurn(rules, st.channels, ids[m]))
  }

  // ---- Channels that nobody joined ----

  function TimedOutIds(st: State, height: Unsigned): set<ChannelId> {
    if height < CHANNEL_TIMEOUT_BLOCKS then {}
    else
      set id | id in st.extra && st.extra[id].participants < 2
        && st.extra[id].createdHeight <= height - CHANNEL_TIMEOUT_BLOCKS
  }

  function TimeOutAll(st: State, ids: seq<ChannelId>): (t: State)
    ensures t.channels == st.channels - Elems(ids) && t.extra == st.extra - Elems(ids)
    ensures t.stats == st.stats
  {
    if ids == [] then st
    else
      var m := |ids| - 1;
      assert Elems(ids) == Elems(ids[..m]) + {ids[m]};
      Delete(TimeOutAll(st, ids[..m]), ids[m], TimedOut(ids[m]))
  }

  // ---- The CHECKs of both never fail ----

  lemma DisputedIsExpirable<P(!new)>(rules: Rules<P>, st: State, id: ChannelId, dFrom: int, cFrom: int, height: nat)
    requires GoodRules(rules) && GoodTables(rules, st, dFrom, cFrom, height)
    requires id in st.channels && st.channels[id].disputeHeight.Some?
    ensures Expirable(rules, st.channels, id)
  {
    hide LawfulRules, ValidProof, CheckVersionedProto;
    assert id in st.channels.Keys;
    var row := st.channels[id];
    var c := ContextOf(rules, id, row);
    ContextIsLawful(rules, id, row.meta);
    assert WinnerFitsTurn(rules, c, Load(row).LatestState());
  }

  /** With blocks at height 10 and later, a dispute expires exactly ten blocks after its height. */
  lemma ExpiresExactlyThen<P>(rules: Rules<P>, st: State, height: Unsigned, id: ChannelId)
    requires InBlock(rules, st, height) && height >= 10
    ensures id in Expired(st, height) <==>
      id in st.channels && st.channels[id].disputeHeight == Some(height - 10)
  {
    hide Waiting, InPlay;
    if id in st.channels {
      assert id in st.channels.Keys;
    }
  }

  /** On the first blocks of a chain, every dispute expires at once. */
  lemma EarlyDisputesExpireAtOnce<P>(rules: Rules<P>, st: State, height: Unsigned, id: ChannelId)
    requires InBlock(rules, st, height) && height < 10
    ensures id in Expired(st, height) <==> id in st.channels && st.channels[id].disputeHeight.Some?
  {
    hide Waiting, InPlay;
    if id in st.channels {
      assert id in st.channels.Keys;
    }
  }

  lemma ExpiryInBlock<P(!new)>(rules: Rules<P>, st: State, height: Unsigned, ids: seq<ChannelId>)
    requires GoodRules(rules) && InBlock(rules, st, height) && IsListing(ids, Expired(st, height))
    ensures forall id :: id in ids ==> Expirable(rules, st.channels, id)
    ensures Elems(ids) == Expired(st, height) && IsListing(ids, Elems(ids))
    ensures GoodTables(rules, ExpireAll(rules, st, ids),
              height - DISPUTE_BLOCKS + 1, height - CHANNEL_TIMEOUT_BLOCKS, height)
  {
    hide Waiting, InPlay, GoodRules, Expirable;
    forall id | id in ids ensures Expirable(rules, st.channels, id) {
      assert id in Elems(ids);
      DisputedIsExpirable(rules, st, id, height - DISPUTE_BLOCKS, height - CHANNEL_TIMEOUT_BLOCKS, height);
    }
    var t := ExpireAll(rules, st, ids);
    forall id | id in t.channels.Keys
      ensures id in t.extra && GoodChannel(rules, t, id, height - DISPUTE_BLOCKS + 1, height - CHANNEL_TIMEOUT_BLOCKS, height)
    {
      assert id in st.channels.Keys && id !in Expired(st, height);
    }
  }

  /** Exactly the channels created twelve blocks ago and never joined time out. */
  lemma TimesOutExactlyThen<P>(rules: Rules<P>, st: State, height: Unsigned, dFrom: int, id: ChannelId)
    requires GoodTables(rules, st, dFrom, height - CHANNEL_TIMEOUT_BLOCKS, height)
    ensures id in TimedOutIds(st, height) <==>
      id in st.channels && |st.channels[id].meta.participants| == 1
      && st.extra[id].createdHeight == height - 12
    ensures id in TimedOutIds(st, height) ==> st.extra[id].participants == 1
  {
    hide GoodProof;
    if id in st.extra {
      assert id in st.channels.Keys;
    }
  }

  lemma TimeOutInBlock<P(!new)>(rules: Rules<P>, st: State, height: Unsigned, ids: seq<ChannelId>)
    requires GoodTables(rules, st, height - DISPUTE_BLOCKS + 1, height - CHANNEL_TIMEOUT_BLOCKS, height)
    requires IsListing(ids, TimedOutIds(st, height))
    ensures AfterBlock(rules, TimeOutAll(st, ids), height)
  {
    hide Waiting, InPlay;
    var t := TimeOutAll(st, ids);
    forall id | id in t.channels.Keys
      ensures id in t.extra
      ensures GoodChannel(rules, t, id, height - DISPUTE_BLOCKS + 1, height - CHANNEL_TIMEOUT_BLOCKS + 1, height)
    {
      assert id in st.channels.Keys && id !in TimedOutIds(st, height);
      TimesOutExactlyThen(rules, st, height, height - DISPUTE_BLOCKS + 1, id);
    }
  }

  // ---- Blocks ----

  /** A block, with the orders in which the two queries at its end list their results. */
  datatype Block = Block(moves: seq<Move>, expired: seq<ChannelId>, timedOut: seq<ChannelId>)

  ghost function AfterMoves<P(!new)>(rules: Rules<P>, st: State, height: Unsigned, b: Block): (t: State)
    requires GoodRules(rules) && height > 0 && AfterBlock(rules, st, height - 1) && FreshMoves(st, b.moves)
    ensures InBlock(rules, t, height)
  {
    NextBlock(rules, st, height);
    ApplyMoves(rules, st, height, b.moves)
  }

  ghost function AfterExpiry<P(!new)>(rules: Rules<P>, st: State, height: Unsigned, b: Block): (t: State)
    requires GoodRules(rules) && height > 0 && AfterBlock(rules, st, height - 1) && FreshMoves(st, b.moves)
    requires IsListing(b.expired, Expired(AfterMoves(rules, st, height, b), height))
    ensures GoodTables(rules, t, height - DISPUTE_BLOCKS + 1, height - CHANNEL_TIMEOUT_BLOCKS, height)
  {
    ExpiryInBlock(rules, AfterMoves(rules, st, height, b), height, b.expired);
    ExpireAll(rules, AfterMoves(rules, st, height, b), b.expired)
  }

  /** The block can follow the state: its ids are fresh, and its listings are those of the queries. */
  ghost predicate Fits<P(!new)>(rules: Rules<P>, st: State, height: Unsigned, b: Block)
    requires GoodRules(rules) && height > 0 && AfterBlock(rules, st, height - 1)
  {
    && FreshMoves(st, b.moves)
    && IsListing(b.expired, Expired(AfterMoves(rules, st, height, b), height))
    && IsListing(b.timedOut, TimedOutIds(AfterExpiry(rules, st, height, b), height))
  }

  /**
   * UpdateState leaves tables in order, so that in the next block the CHECKs on the tables hold; what
   * can still fail are the CHECKs on filed proofs of MoveFailsCheck.
   */
  ghost function UpdateState<P(!new)>(rules: Rules<P>, st: State, height: Unsigned, b: Block): (t: State)
    requires GoodRules(rules) && height > 0 && AfterBlock(rules, st, height - 1) && Fits(rules, st, height, b)
    ensures AfterBlock(rules, t, height)
  {
    TimeOutInBlock(rules, AfterExpiry(rules, st, height, b), height, b.timedOut);
    TimeOutAll(AfterExpiry(rules, st, height, b), b.timedOut)
  }

  /** The k-th move of the block fails a CHECK. */
  ghost predicate FailsAt<P(!new)>(rules: Rules<P>, st: State, height: Unsigned, b: Block, k: nat)
    requires GoodRules(rules) && height > 0 && AfterBlock(rules, st, height - 1) && FreshMoves(st, b.moves)
  {
    k < |b.moves| && FreshMoves(st, b.moves[..k]) &&
    (NextBlock(rules, st, height);
     MoveFailsCheck(rules, ApplyMoves(rules, st, height, b.moves[..k]), height, b.moves[k]))
  }

  /** The source aborts while it processes the block's moves. */
  ghost predicate BlockFailsCheck<P(!new)>(rules: Rules<P>, st: State, height: Unsigned, b: Block)
    requires GoodRules(rules) && height > 0 && AfterBlock(rules, st, height - 1) && FreshMoves(st, b.moves)
  {
    exists k: nat :: FailsAt(rules, st, height, b, k)
  }

  /** A dispute that the moves of its tenth block leave open closes the channel against the player on turn. */
  lemma UnresolvedDisputeCloses<P(!new)>(rules: Rules<P>, st: State, height: Unsigned, b: Block, id: ChannelId)
    requires GoodRules(rules) && height >= 10
    requires AfterBlock(rules, st, height - 1) && Fits(rules, st, height, b)
    requires var m := AfterMoves(rules, st, height, b);
      id in m.channels && m.channels[id].disputeHeight == Some(height - 10)
    ensures id !in UpdateState(rules, st, height, b).channels
    ensures var m := AfterMoves(rules, st, height, b);
      && Expirable(rules, m.channels, id)
      && var ps, l := m.channels[id].meta.participants, OnTurn(rules, m.channels, id);
         Closed(id, ps[1 - l].name, ps[l].name) in UpdateState(rules, st, height, b).log
  {
    hide GoodRules, AfterBlock, InBlock, Expirable, OnTurn, AfterMoves, Expired, TimedOutIds, FreshMoves, GoodTables;
    var m := AfterMoves(rules, st, height, b);
    ExpiresExactlyThen(rules, m, height, id);
    ExpiryInBlock(rules, m, height, b.expired);
    ExpiryLogged(rules, m, b.expired, id);
    TimeOutLogs(AfterExpiry(rules, st, height, b), b.timedOut);
  }

  lemma {:induction false} ExpiryLogged<P>(rules: Rules<P>, st: State, ids: seq<ChannelId>, id: ChannelId)
    requires IsListing(ids, Elems(ids)) && forall id :: id in ids ==> Expirable(rules, st.channels, id)
    requires id in ids
    ensures id in st.channels && |st.channels[id].meta.participants| == 2
    ensures var ps, l := st.channels[id].meta.participants, OnTurn(rules, st.channels, id);
      Closed(id, ps[1 - l].name, ps[l].name) in ExpireAll(rules, st, ids).log
  {
    hide OnTurn;
    var m := |ids| - 1;
    if ids[m] == id {
      assert ids[m] !in Elems(ids[..m]);
    } else {
      ExpiryLogged(rules, st, ids[..m], id);
    }
  }

  lemma {:induction false} TimeOutLogs(st: State, ids: seq<ChannelId>)
    ensures forall e :: e in st.log ==> e in TimeOutAll(st, ids).log
  {
    if ids != [] {
      TimeOutLogs(st, ids[..|ids| - 1]);
    }
  }

  // ---- Channels from move to move ----

  /** What one move may do to a channel that it leaves open. */
  ghost predicate Progresses<P>(rules: Rules<P>, id: ChannelId, row: Row, after: Row)
    requires Waiting(row) || InPlay(rules, id, row)
    requires Waiting(after) || InPlay(rules, id, after)
  {
    || after == row
    || (Waiting(row) && InPlay(rules, id, after) && after.meta.reinit != row.meta.reinit)
    || (&& InPlay(rules, id, row) && InPlay(rules, id, after)
        && after.meta == row.meta && after.reinit == row.reinit
        && Rank(ContextOf(rules, id, after), Load(after)) > Rank(ContextOf(rules, id, row), Load(row)))
  }

  /** A move leaves a channel alone, lets the second player join, or raises its rank; the move is free to close it. */
  lemma ChannelProgress<P(!new)>(rules: Rules<P>, st: State, height: nat, mv: Move, id: ChannelId)
    requires GoodRules(rules) && height > 0 && InBlock(rules, st, height) && FreshTxid(st, mv)
    requires id in st.channels && id in ApplyAction(rules, st, height, mv).channels
    ensures var row, after := st.channels[id], ApplyAction(rules, st, height, mv).channels[id];
      && (Waiting(row) || InPlay(rules, id, row)) && (Waiting(after) || InPlay(rules, id, after))
      && Progresses(rules, id, row, after)
  {
    hide GoodRules, DoDisputeResolution, Playable, Load, Store, InPlay, Waiting, Rank;
    var t := ApplyAction(rules, st, height, mv);
    ActionInBlock(rules, st, height, mv);
    assert id in st.channels.Keys && id in t.channels.Keys;
    match mv.action
    case Create(addr) =>
    case Join(j, addr) =>
      if j == id && id in st.extra && CanJoin(st, mv.name, id) {
        JoinInBlock(rules, st, height, mv.name, mv.txid, id, addr);
        JoinedInPlay(rules, st, height, mv.name, mv.txid, id, addr);
      }
    case Abort(j) =>
    case DeclareLoss(j, reinit) =>
    case FileDispute(j, proof) => FiledProgress(rules, st, height, j, proof, true, id);
    case FileResolution(j, proof) => FiledProgress(rules, st, height, j, proof, false, id);
    case NoAction =>
  }

  lemma JoinedInPlay<P(!new)>(
      rules: Rules<P>, st: State, height: nat, name: string, txid: Txid, id: ChannelId, addr: string)
    requires GoodRules(rules) && InBlock(rules, st, height) && id in st.extra && CanJoin(st, name, id)
    ensures var t := DoJoin(rules, st, name, txid, id, addr);
      id in t.channels && InPlay(rules, id, t.channels[id])
      && t.channels[id].meta.reinit != st.channels[id].meta.reinit
  {
    hide GoodRules, InPlay;
    JoinInBlock(rules, st, height, name, txid, id, addr);
    var t := DoJoin(rules, st, name, txid, id, addr);
    assert id in t.channels.Keys;
    assert |t.channels[id].meta.participants| == 2;
  }

  lemma FiledOther<P(!new)>(
      rules: Rules<P>, st: State, height: nat, j: ChannelId, proof: StateProof, isDispute: bool, id: ChannelId)
    requires InBlock(rules, st, height) && id in st.channels
    requires j != id || |st.channels[id].meta.participants| != 2
    ensures var t := Filed(rules, st, height, j, proof, isDispute);
      id in t.channels && t.channels[id] == st.channels[id]
  {
    hide InPlay, Waiting, Dispute, Resolve, Load, Store, UpdateStats, FailsCheck, NamedWinner;
  }

  lemma FiledProgress<P(!new)>(
      rules: Rules<P>, st: State, height: nat, j: ChannelId, proof: StateProof, isDispute: bool, id: ChannelId)
    requires GoodRules(rules) && height > 0 && InBlock(rules, st, height)
    requires id in st.channels && id in Filed(rules, st, height, j, proof, isDispute).channels
    ensures var row, after := st.channels[id], Filed(rules, st, height, j, proof, isDispute).channels[id];
      && (Waiting(row) || InPlay(rules, id, row)) && (Waiting(after) || InPlay(rules, id, after))
      && Progresses(rules, id, row, after)
  {
    hide GoodRules, Context.Lawful, GoodProof, Dispute, Resolve, Load, Store, InPlay, Waiting, Rank, StateProofFromReinit, UpdateStats,
      FailsCheck, NamedWinner, Close;
    var t := Filed(rules, st, height, j, proof, isDispute);
    FiledInBlock(rules, st, height, j, proof, isDispute);
    assert id in st.channels.Keys && id in t.channels.Keys;
    if j != id || |st.channels[id].meta.participants| != 2 {
      FiledOther(rules, st, height, j, proof, isDispute, id);
    } else {
      TwoPlayersInPlay(rules, st, id, height - DISPUTE_BLOCKS, height - CHANNEL_TIMEOUT_BLOCKS, height);
      var row := st.channels[id];
      var c, v := ContextOf(rules, id, row), Load(row);
      LoadFields(rules, id, row);
      var res := Filing(rules, st, id, proof, height, isDispute);
      if res.Some? && !FilingFailsCheck(rules, st, id, proof, height, isDispute) {
        FilingKeepsMeta(rules, st, id, proof, height, isDispute);
        var winner := NamedWinner(rules, id, res.value);
        if winner.Some? {
          ClosedIsGone(st.(channels := st.channels[id := Store(res.value)]), id, winner.value);
        }
        ContextIsLawful(rules, id, row.meta);
        if isDispute { DisputeProgress(c, v, height, proof); } else { ResolutionProgress(c, v, proof); }
        assert t.channels[id] == Store(res.value);
        StoreFields(res.value);
        StoredRank(c, res.value);
        TwoPlayersInPlay(rules, t, id, height - DISPUTE_BLOCKS, height - CHANNEL_TIMEOUT_BLOCKS, height);
      }
    }
  }

  lemma StoredRank<P>(c: Context<P>, v: ChannelValue)
    requires c.Lawful() && c.Parse(v.reinit).Some? && GoodProof(c, v.reinit, v.proof)
    requires c.Parse(v.LatestState()).Some?
    ensures c.Parse(Load(Store(v)).LatestState()).Some? && Rank(c, Load(Store(v))) == Rank(c, v)
  {
    hide Context.Lawful, GoodProof, Store, Load;
    StoreLoad(c, v);
  }

  // ---- Runs ----

  const EMPTY := State(map[], map[], map[], [])

  /** The blocks at start + 1, start + 2, ... can follow each other. */
  ghost predicate IsRun<P(!new)>(rules: Rules<P>, start: Unsigned, blocks: seq<Block>)
    requires GoodRules(rules) && start + |blocks| < 0x1_0000_0000
    decreases |blocks|, 0
  {
    blocks != [] ==>
      var m := |blocks| - 1;
      IsRun(rules, start, blocks[..m]) && Fits(rules, Ledger(rules, start, blocks[..m]), start + |blocks|, blocks[m])
  }

  /** The tables after a run of blocks from the empty ledger, in order at every height. */
  ghost function Ledger<P(!new)>(rules: Rules<P>, start: Unsigned, blocks: seq<Block>): (st: State)
    requires GoodRules(rules) && start + |blocks| < 0x1_0000_0000 && IsRun(rules, start, blocks)
    ensures AfterBlock(rules, st, start + |blocks|)
    decreases |blocks|, 1
  {
    if blocks == [] then EMPTY
    else
      var m := |blocks| - 1;
      UpdateState(rules, Ledger(rules, start, blocks[..m]), start + |blocks|, blocks[m])
  }
}
