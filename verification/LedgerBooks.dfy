/** The books of the Battleships ledger: statistics and channels add up over every run (ships/logic.cpp). */
module LedgerBooks {
  import opened Counting
  import opened Channels
  import opened ChannelGames
  import opened ShipsLedger
  import opened LedgerRuns

  function Tally(log: seq<Event>, p: Event -> bool): nat {
    if log == [] then 0 else Tally(log[..|log| - 1], p) + (if p(log[|log| - 1]) then 1 else 0)
  }

  function Creations(log: seq<Event>): nat { Tally(log, (e: Event) => e.Created?) }
  function Abortions(log: seq<Event>): nat { Tally(log, (e: Event) => e.Aborted?) }
  function TimeOuts(log: seq<Event>): nat { Tally(log, (e: Event) => e.TimedOut?) }
  function Closings(log: seq<Event>): nat { Tally(log, (e: Event) => e.Closed?) }
  function Wins(log: seq<Event>, name: string): nat { Tally(log, (e: Event) => e.Closed? && e.winner == name) }
  function Losses(log: seq<Event>, name: string): nat { Tally(log, (e: Event) => e.Closed? && e.loser == name) }

  ghost function TotalWon(stats: map<string, Stats>): int { SumOver(stats.Keys, n => Won(stats, n)) }
  ghost function TotalLost(stats: map<string, Stats>): int { SumOver(stats.Keys, n => Lost(stats, n)) }

  ghost predicate Balanced(st: State) {
    && (forall n :: Won(st.stats, n) == Wins(st.log, n) && Lost(st.stats, n) == Losses(st.log, n))
    && TotalWon(st.stats) == Closings(st.log) && TotalLost(st.stats) == Closings(st.log)
    && Creations(st.log) == |st.channels| + Abortions(st.log) + TimeOuts(st.log) + Closings(st.log)
  }

  lemma TallyNext(log: seq<Event>, e: Event)
    ensures Creations(log + [e]) == Creations(log) + (if e.Created? then 1 else 0)
    ensures Abortions(log + [e]) == Abortions(log) + (if e.Aborted? then 1 else 0)
    ensures TimeOuts(log + [e]) == TimeOuts(log) + (if e.TimedOut? then 1 else 0)
    ensures Closings(log + [e]) == Closings(log) + (if e.Closed? then 1 else 0)
    ensures forall n ::
      && Wins(log + [e], n) == Wins(log, n) + (if e.Closed? && e.winner == n then 1 else 0)
      && Losses(log + [e], n) == Losses(log, n) + (if e.Closed? && e.loser == n then 1 else 0)
  {
    assert (log + [e])[..|log|] == log;
  }

  /** Closing a channel counts one win for the winner, one loss for the loser, and nothing else. */
  lemma StatsOfClosing(stats: map<string, Stats>, winner: string, loser: string)
    ensures var t := UpdateStats(stats, winner, loser);
      && TotalWon(t) == TotalWon(stats) + 1 && TotalLost(t) == TotalLost(stats) + 1
      && forall n ::
          && Won(t, n) == Won(stats, n) + (if n == winner then 1 else 0)
          && Lost(t, n) == Lost(stats, n) + (if n == loser then 1 else 0)
  {
    var s1 := stats[winner := Stats(Won(stats, winner) + 1, Lost(stats, winner))];
    OneName(stats, s1, winner);
    OneName(s1, UpdateStats(stats, winner, loser), loser);
  }

  lemma OneName(stats: map<string, Stats>, t: map<string, Stats>, name: string)
    requires name in t && t == stats[name := t[name]]
    ensures TotalWon(t) == TotalWon(stats) + t[name].won - Won(stats, name)
    ensures TotalLost(t) == TotalLost(stats) + t[name].lost - Lost(stats, name)
  {
    assert t.Keys == stats.Keys + {name};
    SumChange(stats.Keys, n => Won(stats, n), n => Won(t, n), name);
    SumChange(stats.Keys, n => Lost(stats, n), n => Lost(t, n), name);
  }

  lemma Removed(channels: map<ChannelId, Row>, id: ChannelId)
    requires id in channels
    ensures |channels - {id}| == |channels| - 1
  {
    assert (channels - {id}).Keys == channels.Keys - {id};
  }

  lemma CloseBalanced(st: State, id: ChannelId, winner: Player)
    requires Balanced(st) && id in st.channels && |st.channels[id].meta.participants| == 2
    ensures Balanced(Close(st, id, winner))
  {
    hide TotalWon, TotalLost, UpdateStats, Won, Lost, Creations, Abortions, TimeOuts, Closings, Wins, Losses;
    var ps := st.channels[id].meta.participants;
    StatsOfClosing(st.stats, ps[winner].name, ps[1 - winner].name);
    TallyNext(st.log, Closed(id, ps[winner].name, ps[1 - winner].name));
    Removed(st.channels, id);
  }

  lemma DeleteBalanced(st: State, id: ChannelId, e: Event)
    requires Balanced(st) && id in st.channels && (e.Aborted? || e.TimedOut?)
    ensures Balanced(Delete(st, id, e))
  {
    hide TotalWon, TotalLost, Won, Lost, Creations, Abortions, TimeOuts, Closings, Wins, Losses;
    TallyNext(st.log, e);
    Removed(st.channels, id);
  }

  lemma CreateBalanced(st: State, height: nat, name: string, txid: Txid, addr: string)
    requires Balanced(st) && txid !in st.channels
    ensures Balanced(DoCreate(st, height, name, txid, addr))
  {
    hide TotalWon, TotalLost, Won, Lost, Creations, Abortions, TimeOuts, Closings, Wins, Losses, Store;
    TallyNext(st.log, Created(txid));
    var t := DoCreate(st, height, name, txid, addr);
    assert t.channels.Keys == st.channels.Keys + {txid};
  }

  lemma ChangeBalanced(st: State, t: State, id: ChannelId, row: Row)
    requires Balanced(st) && id in st.channels
    requires t.channels == st.channels[id := row] && t.stats == st.stats && t.log == st.log
    ensures Balanced(t)
  {
    hide TotalWon, TotalLost, Won, Lost, Creations, Abortions, TimeOuts, Closings, Wins, Losses;
    assert t.channels.Keys == st.channels.Keys;
  }

  lemma DisputeResolutionBalanced<P(!new)>(
      rules: Rules<P>, st: State, id: ChannelId, proof: StateProof, height: nat, isDispute: bool)
    requires Balanced(st) && Playable(rules, st, id)
    ensures Balanced(DoDisputeResolution(rules, st, id, proof, height, isDispute))
  {
    hide Balanced, Dispute, Resolve, Load, Store, Close, OnChainParses, FilingFailsCheck, NamedWinner;
    var res := Filing(rules, st, id, proof, height, isDispute);
    if res.Some? && !FilingFailsCheck(rules, st, id, proof, height, isDispute) {
      FilingKeepsMeta(rules, st, id, proof, height, isDispute);
      WinnerIsPlayer(rules, st, id, proof, height, isDispute);
      var stored := st.(channels := st.channels[id := Store(res.value)]);
      ChangeBalanced(st, stored, id, Store(res.value));
      var winner := NamedWinner(rules, id, res.value);
      if winner.Some? {
        CloseBalanced(stored, id, winner.value);
      }
    }
  }

  lemma WinnerIsPlayer<P>(
      rules: Rules<P>, st: State, id: ChannelId, proof: StateProof, height: nat, isDispute: bool)
    requires Playable(rules, st, id) && !FilingFailsCheck(rules, st, id, proof, height, isDispute)
    ensures var res := Filing(rules, st, id, proof, height, isDispute);
      res.Some? && NamedWinner(rules, id, res.value).Some? ==> NamedWinner(rules, id, res.value).value <= 1
  {
  }

  lemma ActionBalanced<P(!new)>(rules: Rules<P>, st: State, height: nat, mv: Move)
    requires InBlock(rules, st, height) && FreshTxid(st, mv) && Balanced(st)
    ensures Balanced(ApplyAction(rules, st, height, mv))
  {
    hide Balanced, DoDisputeResolution, DoCreate, Close, Delete, InPlay, Waiting, Store, Playable, GoodTables;
    match mv.action
    case Create(addr) => CreateBalanced(st, height, mv.name, mv.txid, addr);
    case Join(id, addr) =>
      if id in st.extra && CanJoin(st, mv.name, id) {
        var t := DoJoin(rules, st, mv.name, mv.txid, id, addr);
        ChangeBalanced(st, t, id, t.channels[id]);
      }
    case Abort(id) =>
      if CanAbort(st, mv.name, id) {
        DeleteBalanced(st, id, Aborted(id));
      }
    case DeclareLoss(id, reinit) =>
      if id in st.channels && |st.channels[id].meta.participants| == 2 {
        CloseBalanced(st, id, 0);
        CloseBalanced(st, id, 1);
      }
    case FileDispute(id, proof) => FiledBalanced(rules, st, height, id, proof, true);
    case FileResolution(id, proof) => FiledBalanced(rules, st, height, id, proof, false);
    case NoAction =>
  }

  lemma FiledBalanced<P(!new)>(
      rules: Rules<P>, st: State, height: nat, id: ChannelId, proof: StateProof, isDispute: bool)
    requires InBlock(rules, st, height) && Balanced(st)
    ensures Balanced(Filed(rules, st, height, id, proof, isDispute))
  {
    hide Balanced, DoDisputeResolution, InPlay, Waiting;
    if id in st.channels && |st.channels[id].meta.participants| == 2 {
      TwoPlayersInPlay(rules, st, id, height - DISPUTE_BLOCKS, height - CHANNEL_TIMEOUT_BLOCKS, height);
      DisputeResolutionBalanced(rules, st, id, proof, height, isDispute);
    }
  }

  lemma {:induction false} MovesBalanced<P(!new)>(rules: Rules<P>, st: State, height: nat, moves: seq<Move>)
    requires GoodRules(rules) && height > 0 && InBlock(rules, st, height) && FreshMoves(st, moves)
    requires Balanced(st)
    ensures Balanced(ApplyMoves(rules, st, height, moves))
    decreases |moves|
  {
    hide Balanced, ApplyAction, GoodRules, InBlock;
    if moves != [] {
      var m := |moves| - 1;
      MovesKeepFresh(rules, st, height, moves);
      MovesBalanced(rules, st, height, moves[..m]);
      ActionBalanced(rules, ApplyMoves(rules, st, height, moves[..m]), height, moves[m]);
    }
  }

  lemma {:induction false} ExpiryBalanced<P(!new)>(rules: Rules<P>, st: State, ids: seq<ChannelId>)
    requires IsListing(ids, Elems(ids)) && forall id :: id in ids ==> Expirable(rules, st.channels, id)
    requires Balanced(st)
    ensures Balanced(ExpireAll(rules, st, ids))
  {
    hide Balanced, OnTurn, Close;
    if ids != [] {
      var m := |ids| - 1;
      ExpiryBalanced(rules, st, ids[..m]);
      assert ids[m] !in Elems(ids[..m]);
      CloseBalanced(ExpireAll(rules, st, ids[..m]), ids[m], 1 - OnTurn(rules, st.channels, ids[m]));
    }
  }

  lemma {:induction false} TimeOutBalanced(st: State, ids: seq<ChannelId>)
    requires IsListing(ids, Elems(ids)) && Elems(ids) <= st.channels.Keys
    requires Balanced(st)
    ensures Balanced(TimeOutAll(st, ids))
  {
    hide Balanced;
    if ids != [] {
      var m := |ids| - 1;
      assert ids[m] in Elems(ids) && Elems(ids[..m]) <= Elems(ids);
      TimeOutBalanced(st, ids[..m]);
      assert ids[m] !in Elems(ids[..m]);
      DeleteBalanced(TimeOutAll(st, ids[..m]), ids[m], TimedOut(ids[m]));
    }
  }

  lemma BlockBalanced<P(!new)>(rules: Rules<P>, st: State, height: Unsigned, b: Block)
    requires GoodRules(rules) && height > 0 && AfterBlock(rules, st, height - 1) && Fits(rules, st, height, b)
    requires Balanced(st)
    ensures Balanced(UpdateState(rules, st, height, b))
  {
    hide Balanced, GoodRules, ApplyMoves, InBlock, Expirable, FreshMoves, Expired;
    NextBlock(rules, st, height);
    MovesBalanced(rules, st, height, b.moves);
    var m, e := AfterMoves(rules, st, height, b), AfterExpiry(rules, st, height, b);
    ExpiryInBlock(rules, m, height, b.expired);
    ExpiryBalanced(rules, m, b.expired);
    assert TimedOutIds(e, height) <= e.channels.Keys;
    TimeOutBalanced(e, b.timedOut);
  }

  /** Over every run: won equals lost equals closed, for each name and in total; created channels add up. */
  lemma {:induction false} LedgerBalanced<P(!new)>(rules: Rules<P>, start: Unsigned, blocks: seq<Block>)
    requires GoodRules(rules) && start + |blocks| < 0x1_0000_0000 && IsRun(rules, start, blocks)
    ensures Balanced(Ledger(rules, start, blocks))
    decreases |blocks|
  {
    hide GoodRules, Fits, UpdateState;
    if blocks != [] {
      var m := |blocks| - 1;
      hide Balanced;
      LedgerBalanced(rules, start, blocks[..m]);
      BlockBalanced(rules, Ledger(rules, start, blocks[..m]), start + |blocks|, blocks[m]);
    }
  }
}
