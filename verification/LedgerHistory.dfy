/**
 * What a channel keeps from height to height of the ledger (ships/logic.cpp), and why a channel
 * daemon may believe what it reads from it (gamechannel/rollingstate.cpp).
 */
module LedgerHistories {
  import opened Wrappers
  import opened Channels
  import opened StateProofs
  import opened ChannelGames
  import opened RollingStates
  import opened ShipsLedger
  import opened LedgerRuns

  /** A channel waits with the empty state, and starts with the board's first one. */
  predicate Began<P>(rules: Rules<P>, row: Row) {
    row.reinit == if |row.meta.participants| == 1 then "" else rules.initialBoard
  }

  predicate Recorded<P>(rules: Rules<P>, st: State) {
    forall id :: id in st.channels ==> Created(id) in st.log && Began(rules, st.channels[id])
  }

  /** The row is of the same reinitialisation, or the second player joined in between. */
  predicate Later(row: Row, after: Row) {
    || (after.meta == row.meta && after.reinit == row.reinit)
    || (&& |row.meta.participants| == 1 && row.meta.reinit == ""
        && |after.meta.participants| == 2 && after.meta.reinit != "")
  }

  /** The later tables know of no channel's past what the earlier ones contradict. */
  predicate Descends(st: State, t: State) {
    && (forall e :: e in st.log ==> e in t.log)
    && forall id :: Created(id) in st.log && id in t.channels ==>
         id in st.channels && Later(st.channels[id], t.channels[id])
  }

  lemma DescendsTransitive(st: State, t: State, u: State)
    requires Descends(st, t) && Descends(t, u)
    ensures Descends(st, u)
  {
  }

  /** Transaction ids are never used twice, also not after the channel is gone. */
  predicate NeverUsed(st: State, moves: seq<Move>) {
    forall k :: 0 <= k < |moves| && moves[k].action.Create? ==> Created(moves[k].txid) !in st.log
  }

  // ---- Moves ----

  lemma ActionLog<P(!new)>(rules: Rules<P>, st: State, height: nat, mv: Move)
    requires InBlock(rules, st, height)
    ensures var t := ApplyAction(rules, st, height, mv);
      && (forall e :: e in st.log ==> e in t.log)
      && (forall id :: Created(id) in t.log ==> Created(id) in st.log || (mv.action.Create? && mv.txid == id))
      && (mv.action.Create? ==> Created(mv.txid) in t.log)
  {
    hide InPlay, Waiting, Playable, Store, Load, UpdateStats, FilingFailsCheck, Filing, NamedWinner;
  }

  lemma ActionDescends<P(!new)>(rules: Rules<P>, st: State, height: nat, mv: Move)
    requires GoodRules(rules) && height > 0 && InBlock(rules, st, height) && FreshTxid(st, mv)
    requires Recorded(rules, st) && NeverUsed(st, [mv])
    ensures Descends(st, ApplyAction(rules, st, height, mv)) && Recorded(rules, ApplyAction(rules, st, height, mv))
  {
    hide GoodRules, ApplyAction, InBlock;
    var t := ApplyAction(rules, st, height, mv);
    ActionLog(rules, st, height, mv);
    ActionInBlock(rules, st, height, mv);
    assert [mv][0] == mv;
    forall id | id in t.channels && id in st.channels
      ensures Later(st.channels[id], t.channels[id]) && Began(rules, t.channels[id])
    {
      RowLater(rules, st, height, mv, id);
    }
    if mv.action.Create? {
      CreatedBegins(rules, st, height, mv);
    }
  }

  lemma CreatedBegins<P(!new)>(rules: Rules<P>, st: State, height: nat, mv: Move)
    requires InBlock(rules, st, height) && mv.action.Create?
    ensures var t := ApplyAction(rules, st, height, mv);
      mv.txid in t.channels && Began(rules, t.channels[mv.txid])
  {
  }

  lemma RowLater<P(!new)>(rules: Rules<P>, st: State, height: nat, mv: Move, id: ChannelId)
    requires GoodRules(rules) && height > 0 && InBlock(rules, st, height) && FreshTxid(st, mv)
    requires id in st.channels && id in ApplyAction(rules, st, height, mv).channels && Began(rules, st.channels[id])
    ensures var row, after := st.channels[id], ApplyAction(rules, st, height, mv).channels[id];
      Later(row, after) && Began(rules, after)
  {
    hide GoodRules, ApplyAction, InBlock, Rank, GoodProof, Load, GoodTables;
    ChannelProgress(rules, st, height, mv, id);
    if Waiting(st.channels[id]) && !Waiting(ApplyAction(rules, st, height, mv).channels[id]) {
      JoinedBegins(rules, st, height, mv, id);
    }
  }

  /** Only joining makes a waiting channel one in play. */
  lemma JoinedBegins<P(!new)>(rules: Rules<P>, st: State, height: nat, mv: Move, id: ChannelId)
    requires GoodRules(rules) && height > 0 && InBlock(rules, st, height) && FreshTxid(st, mv)
    requires id in st.channels && id in ApplyAction(rules, st, height, mv).channels
    requires Waiting(st.channels[id]) && !Waiting(ApplyAction(rules, st, height, mv).channels[id])
    ensures var after := ApplyAction(rules, st, height, mv).channels[id];
      |after.meta.participants| == 2 && after.reinit == rules.initialBoard
  {
    hide GoodRules, InPlay, DoDisputeResolution, Playable, Load, Close, Filed;
    match mv.action
    case Create(_) =>
    case Join(_, _) =>
    case Abort(_) =>
    case DeclareLoss(j, _) =>
      if j in st.channels && |st.channels[j].meta.participants| == 2 {
        ClosedIsGone(st, j, 0);
        ClosedIsGone(st, j, 1);
      }
    case FileDispute(j, proof) => FiledOther(rules, st, height, j, proof, true, id);
    case FileResolution(j, proof) => FiledOther(rules, st, height, j, proof, false, id);
    case NoAction =>
  }

  lemma {:induction false} MovesDescend<P(!new)>(rules: Rules<P>, st: State, height: nat, moves: seq<Move>)
    requires GoodRules(rules) && height > 0 && InBlock(rules, st, height) && FreshMoves(st, moves)
    requires Recorded(rules, st) && NeverUsed(st, moves)
    ensures var t := ApplyMoves(rules, st, height, moves);
      && Descends(st, t) && Recorded(rules, t)
      && forall id :: Created(id) in t.log ==>
           Created(id) in st.log || exists k :: 0 <= k < |moves| && moves[k].action.Create? && moves[k].txid == id
    decreases |moves|
  {
    hide ApplyAction, GoodRules, InBlock, Descends, Recorded;
    if moves == [] {
      DescendsSelf(st);
    } else {
      var m := |moves| - 1;
      MovesKeepFresh(rules, st, height, moves);
      MovesDescend(rules, st, height, moves[..m]);
      var t := ApplyMoves(rules, st, height, moves[..m]);
      assert NeverUsed(t, [moves[m]]);
      ActionDescends(rules, t, height, moves[m]);
      ActionLog(rules, t, height, moves[m]);
      DescendsTransitive(st, t, ApplyMoves(rules, st, height, moves));
    }
  }

  lemma DescendsSelf(st: State)
    ensures Descends(st, st)
  {
  }

  // ---- Blocks ----

  /** Deleting channels only shortens the tables. */
  ghost predicate Shortens(st: State, t: State) {
    && (forall e :: e in st.log ==> e in t.log)
    && (forall id :: Created(id) in t.log ==> Created(id) in st.log)
    && forall id :: id in t.channels ==> id in st.channels && t.channels[id] == st.channels[id]
  }

  lemma {:induction false} ExpiryShortens<P>(rules: Rules<P>, st: State, ids: seq<ChannelId>)
    requires IsListing(ids, Elems(ids)) && forall id :: id in ids ==> Expirable(rules, st.channels, id)
    ensures Shortens(st, ExpireAll(rules, st, ids))
  {
    hide OnTurn, UpdateStats, Expirable;
    if ids != [] {
      ExpiryShortens(rules, st, ids[..|ids| - 1]);
    }
  }

  lemma {:induction false} TimeOutShortens(st: State, ids: seq<ChannelId>)
    ensures Shortens(st, TimeOutAll(st, ids))
  {
    if ids != [] {
      TimeOutShortens(st, ids[..|ids| - 1]);
    }
  }

  lemma ShortenedDescends<P>(rules: Rules<P>, st: State, t: State, u: State)
    requires Descends(st, t) && Recorded(rules, t) && Shortens(t, u)
    ensures Descends(st, u) && Recorded(rules, u)
  {
    hide Later, Began;
  }

  /** After a block, every channel is new, or the same as before, or just joined. */
  lemma BlockDescends<P(!new)>(rules: Rules<P>, st: State, height: Unsigned, b: Block)
    requires GoodRules(rules) && height > 0 && AfterBlock(rules, st, height - 1) && Fits(rules, st, height, b)
    requires Recorded(rules, st) && NeverUsed(st, b.moves)
    ensures Descends(st, UpdateState(rules, st, height, b)) && Recorded(rules, UpdateState(rules, st, height, b))
  {
    hide GoodRules, ApplyMoves, InBlock, Expirable, FreshMoves, Expired, Descends, Recorded, Shortens, NeverUsed;
    NextBlock(rules, st, height);
    MovesDescend(rules, st, height, b.moves);
    var m, e := AfterMoves(rules, st, height, b), AfterExpiry(rules, st, height, b);
    ExpiryInBlock(rules, m, height, b.expired);
    ExpiryShortens(rules, m, b.expired);
    ShortenedDescends(rules, st, m, e);
    TimeOutShortens(e, b.timedOut);
    ShortenedDescends(rules, st, e, UpdateState(rules, st, height, b));
  }

  // ---- Runs ----

  lemma {:induction false} RunPrefix<P(!new)>(rules: Rules<P>, start: Unsigned, blocks: seq<Block>, k: nat)
    requires GoodRules(rules) && start + |blocks| < 0x1_0000_0000 && IsRun(rules, start, blocks) && k <= |blocks|
    ensures IsRun(rules, start, blocks[..k])
  {
    hide GoodRules, Fits;
    if k == |blocks| {
      assert blocks[..k] == blocks;
    } else {
      var m := |blocks| - 1;
      RunPrefix(rules, start, blocks[..m], k);
      assert blocks[..m][..k] == blocks[..k];
    }
  }

  /** The tables after the first k blocks of a run. */
  ghost function TablesAt<P(!new)>(rules: Rules<P>, start: Unsigned, blocks: seq<Block>, k: nat): (st: State)
    requires GoodRules(rules) && start + |blocks| < 0x1_0000_0000 && IsRun(rules, start, blocks) && k <= |blocks|
    ensures AfterBlock(rules, st, start + k)
  {
    RunPrefix(rules, start, blocks, k);
    Ledger(rules, start, blocks[..k])
  }

  /** No block of the run creates a channel with an id that was used before. */
  ghost predicate NewIds<P(!new)>(rules: Rules<P>, start: Unsigned, blocks: seq<Block>)
    requires GoodRules(rules) && start + |blocks| < 0x1_0000_0000 && IsRun(rules, start, blocks)
  {
    forall k :: 0 <= k < |blocks| ==> NeverUsed(TablesAt(rules, start, blocks, k), blocks[k].moves)
  }

  lemma NextTables<P(!new)>(rules: Rules<P>, start: Unsigned, blocks: seq<Block>, k: nat)
    requires GoodRules(rules) && start + |blocks| < 0x1_0000_0000 && IsRun(rules, start, blocks) && k < |blocks|
    ensures var st := TablesAt(rules, start, blocks, k);
      && Fits(rules, st, start + k + 1, blocks[k])
      && TablesAt(rules, start, blocks, k + 1) == UpdateState(rules, st, start + k + 1, blocks[k])
  {
    hide GoodRules, Fits, UpdateState, AfterBlock;
    RunPrefix(rules, start, blocks, k + 1);
    assert blocks[..k + 1][..k] == blocks[..k];
  }

  /** Between any two heights, channels only come, go, and are joined. */
  lemma {:induction false} RunDescends<P(!new)>(
      rules: Rules<P>, start: Unsigned, blocks: seq<Block>, j: nat, k: nat)
    requires GoodRules(rules) && start + |blocks| < 0x1_0000_0000 && IsRun(rules, start, blocks)
    requires NewIds(rules, start, blocks) && j <= k <= |blocks|
    ensures Descends(TablesAt(rules, start, blocks, j), TablesAt(rules, start, blocks, k))
    ensures Recorded(rules, TablesAt(rules, start, blocks, k))
    decreases k
  {
    hide GoodRules, Fits, UpdateState, Descends, NeverUsed, AfterBlock, Ledger;
    if k == 0 {
      NothingAtFirst(rules, start, blocks);
      DescendsSelf(TablesAt(rules, start, blocks, 0));
    } else {
      var m := k - 1;
      RunDescends(rules, start, blocks, if j < k then j else m, m);
      NextTables(rules, start, blocks, m);
      BlockDescends(rules, TablesAt(rules, start, blocks, m), start + k, blocks[m]);
      if j < k {
        DescendsTransitive(
          TablesAt(rules, start, blocks, j), TablesAt(rules, start, blocks, m), TablesAt(rules, start, blocks, k));
      } else {
        DescendsSelf(TablesAt(rules, start, blocks, k));
      }
    }
  }

  lemma NothingAtFirst<P(!new)>(rules: Rules<P>, start: Unsigned, blocks: seq<Block>)
    requires GoodRules(rules) && start + |blocks| < 0x1_0000_0000 && IsRun(rules, start, blocks)
    ensures TablesAt(rules, start, blocks, 0) == EMPTY
  {
    hide GoodRules;
  }

  /** A reinitialisation id stands for the same players and the same first state at every height. */
  lemma ReinitsAgree<P(!new)>(
      rules: Rules<P>, start: Unsigned, blocks: seq<Block>, j: nat, k: nat, id: ChannelId)
    requires GoodRules(rules) && start + |blocks| < 0x1_0000_0000 && IsRun(rules, start, blocks)
    requires NewIds(rules, start, blocks) && j <= |blocks| && k <= |blocks|
    requires var s, t := TablesAt(rules, start, blocks, j), TablesAt(rules, start, blocks, k);
      id in s.channels && id in t.channels && s.channels[id].meta.reinit == t.channels[id].meta.reinit
    ensures var s, t := TablesAt(rules, start, blocks, j), TablesAt(rules, start, blocks, k);
      s.channels[id].meta == t.channels[id].meta && s.channels[id].reinit == t.channels[id].reinit
  {
    hide GoodRules, NewIds, AfterBlock, TablesAt, Began;
    RunDescends(rules, start, blocks, 0, j);
    RunDescends(rules, start, blocks, 0, k);
    if j <= k {
      RunDescends(rules, start, blocks, j, k);
    } else {
      RunDescends(rules, start, blocks, k, j);
    }
  }

  // ---- What a daemon reads ----

  /** What the daemon knows of each reinitialisation is what the ledger said of it at some height. */
  ghost predicate FromLedger<P(!new)>(
      rules: Rules<P>, start: Unsigned, blocks: seq<Block>, id: ChannelId, known: Rolling<P>)
    requires GoodRules(rules) && start + |blocks| < 0x1_0000_0000 && IsRun(rules, start, blocks)
  {
    forall r :: r in known.reinits ==>
      exists k: nat :: k <= |blocks| && SaidAt(rules, TablesAt(rules, start, blocks, k), id, r, known.reinits[r])
  }

  predicate SaidAt<P>(rules: Rules<P>, st: State, id: ChannelId, r: string, e: ReinitData<P>) {
    id in st.channels && st.channels[id].meta == e.meta && st.channels[id].reinit == e.reinitState && e.meta.reinit == r
  }

  /** The ledger's data for a channel. */
  function Said(st: State, id: ChannelId): Update
    requires id in st.channels
  {
    OnChain(st.channels[id].meta, st.channels[id].reinit, Load(st.channels[id]).proof)
  }

  /**
   * At every height of the chain, a daemon that knows what it knows from the ledger can take the
   * ledger's data for granted, of waiting channels as well if the empty state parses.
   */
  lemma LedgerIsTruthful<P(!new)>(
      rules: Rules<P>, start: Unsigned, blocks: seq<Block>, k: nat, id: ChannelId, known: Rolling<P>)
    requires GoodRules(rules) && start + |blocks| < 0x1_0000_0000 && IsRun(rules, start, blocks)
    requires NewIds(rules, start, blocks) && k <= |blocks| && FromLedger(rules, start, blocks, id, known)
    requires id in TablesAt(rules, start, blocks, k).channels
    requires var row := TablesAt(rules, start, blocks, k).channels[id];
      |row.meta.participants| == 1 ==> ContextOf(rules, id, row).Parse("").Some?
    ensures var row := TablesAt(rules, start, blocks, k).channels[id];
      var c, s := ContextOf(rules, id, row), Load(row).LatestState();
      && Truthful(rules.env, id, known, Said(TablesAt(rules, start, blocks, k), id))
      && Began(rules, row) && c.Parse(s).Some?
      && (row.disputeHeight.Some? ==>
            row.disputeHeight.value > 0 && c.env.whoseTurn(c.Parse(s).value) != NO_TURN)
  {
    hide GoodRules, NewIds, TablesAt, ValidProof, CheckVersionedProto, LawfulRules, GoodTables, Load, Waiting, InPlay,
      Began, Descends;
    var st := TablesAt(rules, start, blocks, k);
    var row := st.channels[id];
    RunDescends(rules, start, blocks, 0, k);
    ReadsGood(rules, st, start + k, id);
    if row.meta.reinit in known.reinits {
      var j: nat :| j <= |blocks|
        && SaidAt(rules, TablesAt(rules, start, blocks, j), id, row.meta.reinit, known.reinits[row.meta.reinit]);
      ReinitsAgree(rules, start, blocks, j, k, id);
    }
  }

  /** The proof in a row of the tables is good, and disputes are about states with a turn. */
  lemma ReadsGood<P(!new)>(rules: Rules<P>, st: State, height: nat, id: ChannelId)
    requires GoodRules(rules) && AfterBlock(rules, st, height) && Recorded(rules, st) && id in st.channels
    requires var row := st.channels[id];
      |row.meta.participants| == 1 ==> ContextOf(rules, id, row).Parse("").Some?
    ensures var row := st.channels[id];
      var c, s := ContextOf(rules, id, row), Load(row).LatestState();
      && GoodProof(c, row.reinit, Load(row).proof) && c.Parse(s).Some?
      && (row.disputeHeight.Some? ==>
            row.disputeHeight.value > 0 && c.env.whoseTurn(c.Parse(s).value) != NO_TURN)
  {
    hide LawfulRules, ValidProof, CheckVersionedProto, Context.Lawful;
    assert id in st.channels.Keys;
    var row := st.channels[id];
    var c := ContextOf(rules, id, row);
    if |row.meta.participants| == 1 {
      ContextIsLawful(rules, id, row.meta);
      ReinitProofIsGood(c, row.reinit);
    } else {
      assert WinnerFitsTurn(rules, c, Load(row).LatestState());
    }
  }

  /** Following the ledger at any height, and whatever other players send, the daemon's knowledge stays so. */
  lemma KnowledgeFromLedger<P(!new)>(
      rules: Rules<P>, start: Unsigned, blocks: seq<Block>, k: nat, id: ChannelId, known: Rolling<P>, u: Update)
    requires GoodRules(rules) && start + |blocks| < 0x1_0000_0000 && IsRun(rules, start, blocks)
    requires k <= |blocks| && FromLedger(rules, start, blocks, id, known)
    requires u.OnChain? ==>
      && id in TablesAt(rules, start, blocks, k).channels
      && u == Said(TablesAt(rules, start, blocks, k), id)
      && Context(rules.env, id, u.meta).Parse(UnverifiedProofEndState(u.proof)).Some?
    ensures FromLedger(rules, start, blocks, id, Apply(rules.env, id, known, u))
  {
    hide GoodRules, TablesAt, Load, Apply, SaidAt;
    var t := Apply(rules.env, id, known, u);
    forall r | r in t.reinits
      ensures exists j: nat :: j <= |blocks| && SaidAt(rules, TablesAt(rules, start, blocks, j), id, r, t.reinits[r])
    {
      EntryIdentity(rules.env, id, known, u, r);
      if r in known.reinits {
        var j: nat :| j <= |blocks| && SaidAt(rules, TablesAt(rules, start, blocks, j), id, r, known.reinits[r]);
        SameSaid(rules, TablesAt(rules, start, blocks, j), id, r, known.reinits[r], t.reinits[r]);
      } else {
        SaidNow(rules, TablesAt(rules, start, blocks, k), id, t.reinits[r]);
      }
    }
  }

  lemma EntryIdentity<P>(env: Env<P>, id: ChannelId, known: Rolling<P>, u: Update, r: string)
    requires u.OnChain? ==> Context(env, id, u.meta).Parse(UnverifiedProofEndState(u.proof)).Some?
    requires r in Apply(env, id, known, u).reinits
    ensures var e := Apply(env, id, known, u).reinits[r];
      if r in known.reinits then e.meta == known.reinits[r].meta && e.reinitState == known.reinits[r].reinitState
      else u.OnChain? && e.meta == u.meta && e.reinitState == u.reinitState && r == u.meta.reinit
  {
    hide ValidProof, CheckVersionedProto;
  }

  lemma SameSaid<P>(rules: Rules<P>, st: State, id: ChannelId, r: string, e: ReinitData<P>, f: ReinitData<P>)
    requires SaidAt(rules, st, id, r, e) && f.meta == e.meta && f.reinitState == e.reinitState
    ensures SaidAt(rules, st, id, r, f)
  {
  }

  lemma SaidNow<P>(rules: Rules<P>, st: State, id: ChannelId, e: ReinitData<P>)
    requires id in st.channels && e.meta == st.channels[id].meta && e.reinitState == st.channels[id].reinit
    ensures SaidAt(rules, st, id, e.meta.reinit, e)
  {
  }
}
