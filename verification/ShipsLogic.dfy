/** The on-chain game logic of Battleships (ships/logic.cpp), working on its tables in place. */
module ShipsLogics {
  import opened Wrappers
  import opened Channels
  import opened StateProofs
  import opened ChannelGames
  import opened ShipsLedger
  import opened LedgerRuns

  class ShipsLogic<!P(!new)> {
    const rules: Rules<P>
    var channels: map<ChannelId, Row>
    var extra: map<ChannelId, Extra>
    var stats: map<string, Stats>
    ghost var log: seq<Event>

    ghost function Value(): State
      reads this
    {
      State(channels, extra, stats, log)
    }

    /** The game starts with empty tables. */
    constructor InitialiseState(rules: Rules<P>)
      ensures this.rules == rules && Value() == EMPTY
    {
      this.rules := rules;
      channels, extra, stats, log := map[], map[], map[], [];
    }

    method DeleteChannelById(id: ChannelId, ghost e: Event)
      modifies this`channels, this`extra, this`log
      ensures Value() == Delete(old(Value()), id, e)
    {
      channels := channels - {id};
      extra := extra - {id};
      log := log + [e];
    }

    method UpdateStats(meta: Metadata, winner: Player)
      requires |meta.participants| == 2
      modifies this`stats
      ensures stats == ShipsLedger.UpdateStats(
                         old(stats), meta.participants[winner].name, meta.participants[1 - winner].name)
    {
      var winnerName, loserName := meta.participants[winner].name, meta.participants[1 - winner].name;
      if winnerName !in stats {
        stats := stats[winnerName := Stats(0, 0)];
      }
      if loserName !in stats {
        stats := stats[loserName := Stats(0, 0)];
      }
      stats := stats[winnerName := stats[winnerName].(won := stats[winnerName].won + 1)];
      stats := stats[loserName := stats[loserName].(lost := stats[loserName].lost + 1)];
    }

    /** The winner of a two-player channel is decided: the statistics count it, and the channel goes. */
    method CloseChannel(id: ChannelId, meta: Metadata, winner: Player)
      requires id in channels && channels[id].meta == meta && |meta.participants| == 2
      modifies this`channels, this`extra, this`stats, this`log
      ensures Value() == Close(old(Value()), id, winner)
    {
      UpdateStats(meta, winner);
      DeleteChannelById(id, Closed(id, meta.participants[winner].name, meta.participants[1 - winner].name));
    }

    // ---- Moves ----

    method HandleCreateChannel(height: nat, name: string, txid: Txid, addr: string)
      requires txid !in channels
      modifies this`channels, this`extra, this`log
      ensures Value() == DoCreate(old(Value()), height, name, txid, addr)
    {
      var h := new ChannelData.CreateNew(txid);
      h.Reinitialise(Metadata([Participant(name, addr)], ""), "");
      extra := extra[txid := Extra(height, 1)];
      channels := h.WriteBack(channels);
      log := log + [Created(txid)];
    }

    method HandleJoinChannel(ghost height: nat, name: string, txid: Txid, id: ChannelId, addr: string)
      requires GoodRules(rules) && InBlock(rules, Value(), height)
      modifies this`channels, this`extra
      ensures Value() == if id in old(extra) then DoJoin(rules, old(Value()), name, txid, id, addr) else old(Value())
    {
      hide GoodRules, GoodChannel, Store;
      if id !in channels {
        return;
      }
      assert id in extra;
      NoZeroDispute(height, id);
      var h := new ChannelData.FromRow(id, channels[id]);
      if |h.metadata.participants| != 1 {
        return;
      }
      if h.metadata.participants[0].name == name {
        return;
      }
      JoinInBlock(rules, Value(), height, name, txid, id, addr);
      var newMeta := Metadata(h.metadata.participants + [Participant(name, addr)],
                              rules.nextReinit(h.metadata.reinit, txid));
      h.Reinitialise(newMeta, rules.initialBoard);
      extra := extra[id := extra[id].(participants := |newMeta.participants|)];
      channels := h.WriteBack(channels);
    }

    lemma NoZeroDispute(height: nat, id: ChannelId)
      requires InBlock(rules, Value(), height) && id in channels
      ensures channels[id].disputeHeight != Some(0)
    {
      assert id in Value().channels.Keys;
    }

    method HandleAbortChannel(name: string, id: ChannelId)
      modifies this`channels, this`extra, this`log
      ensures Value() == DoAbort(old(Value()), name, id)
    {
      if id !in channels {
        return;
      }
      var meta := channels[id].meta;
      if |meta.participants| != 1 {
        return;
      }
      if meta.participants[0].name != name {
        return;
      }
      DeleteChannelById(id, Aborted(id));
    }

    lemma DistinctPlayers(height: nat, id: ChannelId)
      requires InBlock(rules, Value(), height) && id in channels && |channels[id].meta.participants| == 2
      ensures channels[id].meta.participants[0].name != channels[id].meta.participants[1].name
    {
      TwoPlayersInPlay(rules, Value(), id, height - DISPUTE_BLOCKS, height - CHANNEL_TIMEOUT_BLOCKS, height);
    }

    method HandleDeclareLoss(ghost height: nat, name: string, id: ChannelId, reinit: string)
      requires InBlock(rules, Value(), height)
      modifies this`channels, this`extra, this`stats, this`log
      ensures Value() == DoDeclareLoss(old(Value()), name, id, reinit)
    {
      hide Playable, GoodTables, InPlay, Close;
      if id !in channels {
        return;
      }
      var meta := channels[id].meta;
      if |meta.participants| != 2 {
        return;
      }
      if reinit != meta.reinit {
        return;
      }
      DistinctPlayers(height, id);
      var loser := -1;
      for i := 0 to |meta.participants|
        invariant loser == -1 <==> forall k :: 0 <= k < i ==> meta.participants[k].name != name
        invariant loser != -1 ==> 0 <= loser < i && meta.participants[loser].name == name
      {
        if meta.participants[i].name == name {
          assert loser == -1;
          loser := i;
        }
      }
      if loser == -1 {
        return;
      }
      assert IndexOf(meta, name) == Some(loser);
      CloseChannel(id, meta, 1 - loser);
    }

    /** False if the move is processed; true if the source aborts at a CHECK on the filed proof. */
    method HandleDisputeResolution(height: nat, id: ChannelId, proof: StateProof, isDispute: bool)
        returns (failed: bool)
      requires GoodRules(rules) && height > 0 && InBlock(rules, Value(), height)
      modifies this`channels, this`extra, this`stats, this`log
      ensures failed <==> FiledFailsCheck(rules, old(Value()), height, id, proof, isDispute)
      ensures !failed ==> Value() == Filed(rules, old(Value()), height, id, proof, isDispute)
    {
      hide GoodRules, GoodChannel, Dispute, Resolve, Store, Load, Context.Lawful, InPlay, UnverifiedProofEndState,
        Close, FailsCheck;
      failed := false;
      if id !in channels {
        return;
      }
      NoZeroDispute(height, id);
      var h := new ChannelData.FromRow(id, channels[id]);
      var meta := h.metadata;
      LoadMeta(channels[id]);
      if |meta.participants| != 2 {
        return;
      }
      TwoPlayersInPlay(rules, Value(), id, height - DISPUTE_BLOCKS, height - CHANNEL_TIMEOUT_BLOCKS, height);
      ContextIsLawful(rules, id, meta);
      DisputeInPast(height, id);
      var c := Context(rules.env, id, meta);
      ghost var was := Value();
      var verdict;
      if isDispute {
        verdict := ProcessDispute(c, h, height, proof);
      } else {
        verdict := ProcessResolution(c, h, proof);
      }
      if verdict != Accepted {
        RejectedOrFails(rules, was, id, proof, height, isDispute);
        return verdict == CheckFailed;
      }
      AcceptedParses(rules, was, id, proof, height, isDispute);
      var p := c.Parse(UnverifiedProofEndState(h.proof)).value;
      channels := h.WriteBack(channels);
      if rules.winner(p).Some? {
        if rules.winner(p).value > 1 {
          return true;
        }
        CloseChannel(id, meta, rules.winner(p).value);
      }
    }

    lemma DisputeInPast(height: nat, id: ChannelId)
      requires InBlock(rules, Value(), height) && id in channels
      ensures channels[id].disputeHeight.Some? ==> channels[id].disputeHeight.value <= height
      ensures Load(channels[id]).disputeHeight == channels[id].disputeHeight
    {
      assert id in Value().channels.Keys;
    }

    // ---- The end of the block ----

    method ProcessExpiredDisputes(height: Unsigned, order: seq<ChannelId>)
      requires GoodRules(rules) && InBlock(rules, Value(), height) && IsListing(order, Expired(Value(), height))
      requires forall id :: id in order ==> Expirable(rules, channels, id)
      requires IsListing(order, Elems(order))
      modifies this`channels, this`extra, this`stats, this`log
      ensures Value() == ExpireAll(rules, old(Value()), order)
    {
      hide GoodRules, GoodTables, Expired, Load, Expirable, Close, OnTurn;
      ghost var was := Value();
      for i := 0 to |order|
        invariant Value() == ExpireAll(rules, was, order[..i])
      {
        var id := order[i];
        NextRow(was, order, i);
        ExpirableRow(rules, was.channels, id);
        var row := channels[id];
        var c := Context(rules.env, id, row.meta);
        var loser: Player := c.env.whoseTurn(c.Parse(Load(row).LatestState()).value);
        CloseChannel(id, row.meta, 1 - loser);
      }
      assert order[..|order|] == order;
    }

    lemma NextRow(was: State, order: seq<ChannelId>, i: nat)
      requires i < |order| && IsListing(order, Elems(order))
      requires forall id :: id in order ==> Expirable(rules, was.channels, id)
      ensures order[..i + 1][..i] == order[..i] && order[..i + 1][i] == order[i]
      ensures IsListing(order[..i], Elems(order[..i])) && IsListing(order[..i + 1], Elems(order[..i + 1]))
      ensures order[i] !in Elems(order[..i])
    {
    }

    method TimeOutChannels(height: Unsigned, order: seq<ChannelId>)
      requires IsListing(order, TimedOutIds(Value(), height))
      requires forall id :: id in order ==>
        id in extra && extra[id].participants == 1 && extra[id].createdHeight == height - CHANNEL_TIMEOUT_BLOCKS
      modifies this`channels, this`extra, this`log
      ensures Value() == TimeOutAll(old(Value()), order)
    {
      if height < CHANNEL_TIMEOUT_BLOCKS {
        NothingListed(order);
        return;
      }
      ghost var was := Value();
      for i := 0 to |order|
        invariant Value() == TimeOutAll(was, order[..i])
      {
        var id := order[i];
        assert id in order && id !in Elems(order[..i]);
        assert extra[id].createdHeight == height - CHANNEL_TIMEOUT_BLOCKS && extra[id].participants == 1;
        assert order[..i + 1][..i] == order[..i];
        DeleteChannelById(id, TimedOut(id));
      }
      assert order[..|order|] == order;
    }

    // ---- Blocks ----

    method ApplyMove(height: nat, mv: Move) returns (failed: bool)
      requires GoodRules(rules) && height > 0 && InBlock(rules, Value(), height) && FreshTxid(Value(), mv)
      modifies this`channels, this`extra, this`stats, this`log
      ensures failed <==> MoveFailsCheck(rules, old(Value()), height, mv)
      ensures !failed ==> Value() == ApplyAction(rules, old(Value()), height, mv)
    {
      hide GoodRules, GoodTables, DoJoin, DoDeclareLoss, Filed, FiledFailsCheck;
      failed := false;
      match mv.action
      case Create(addr) => HandleCreateChannel(height, mv.name, mv.txid, addr);
      case Join(id, addr) => HandleJoinChannel(height, mv.name, mv.txid, id, addr);
      case Abort(id) => HandleAbortChannel(mv.name, id);
      case DeclareLoss(id, reinit) => HandleDeclareLoss(height, mv.name, id, reinit);
      case FileDispute(id, proof) => failed := HandleDisputeResolution(height, id, proof, true);
      case FileResolution(id, proof) => failed := HandleDisputeResolution(height, id, proof, false);
      case NoAction =>
    }

    /** Processes a block; true if the source aborts on the way, exactly at a move that fails a CHECK. */
    method UpdateState(height: Unsigned, b: Block) returns (failed: bool)
      requires GoodRules(rules) && height > 0 && AfterBlock(rules, Value(), height - 1)
      requires Fits(rules, Value(), height, b)
      modifies this`channels, this`extra, this`stats, this`log
      ensures failed <==> BlockFailsCheck(rules, old(Value()), height, b)
      ensures !failed ==> Value() == LedgerRuns.UpdateState(rules, old(Value()), height, b)
      ensures !failed ==> AfterBlock(rules, Value(), height)
    {
      hide GoodRules, GoodTables, ApplyAction, Expirable, Expired, TimedOutIds, IsListing, MoveFailsCheck;
      ghost var was := Value();
      NextBlock(rules, was, height);
      for i := 0 to |b.moves|
        invariant FreshMoves(was, b.moves[..i])
        invariant Value() == ApplyMoves(rules, was, height, b.moves[..i])
        invariant forall j :: 0 <= j < i ==> !FailsAt(rules, was, height, b, j)
      {
        var mv := b.moves[i];
        assert b.moves[..i + 1][..i] == b.moves[..i];
        assert FreshMoves(was, b.moves[..i + 1]);
        MovesKeepFresh(rules, was, height, b.moves[..i + 1]);
        failed := ApplyMove(height, mv);
        if failed {
          assert FailsAt(rules, was, height, b, i);
          return;
        }
      }
      assert b.moves[..|b.moves|] == b.moves;
      ExpiryInBlock(rules, Value(), height, b.expired);
      ProcessExpiredDisputes(height, b.expired);
      OnlyTimedOut(rules, Value(), height, b.timedOut);
      TimeOutChannels(height, b.timedOut);
      failed := false;
    }
  }

  lemma NothingListed(order: seq<ChannelId>)
    ensures order != [] ==> Elems(order) != {}
  {
    if order != [] {
      assert order[0] in Elems(order);
    }
  }

  lemma LoadMeta(row: Row)
    ensures Load(row).meta == row.meta
  {
  }

  lemma RejectedOrFails<P>(
      rules: Rules<P>, st: State, id: ChannelId, proof: StateProof, height: nat, isDispute: bool)
    requires Playable(rules, st, id) && Filing(rules, st, id, proof, height, isDispute).None?
    ensures FilingFailsCheck(rules, st, id, proof, height, isDispute)
       <==> FailsCheck(ContextOf(rules, id, st.channels[id]), proof)
    ensures DoDisputeResolution(rules, st, id, proof, height, isDispute) == st
  {
    hide Dispute, Resolve, FailsCheck;
  }

  lemma AcceptedParses<P(!new)>(
      rules: Rules<P>, st: State, id: ChannelId, proof: StateProof, height: nat, isDispute: bool)
    requires Playable(rules, st, id) && Filing(rules, st, id, proof, height, isDispute).Some?
    ensures var v := Filing(rules, st, id, proof, height, isDispute).value;
      && v.meta == st.channels[id].meta && Store(v).meta == v.meta
      && ContextOf(rules, id, st.channels[id]).Parse(UnverifiedProofEndState(v.proof)).Some?
      && NamedWinner(rules, id, v)
         == rules.winner(ContextOf(rules, id, st.channels[id]).Parse(UnverifiedProofEndState(v.proof)).value)
    ensures !FailsCheck(ContextOf(rules, id, st.channels[id]), proof)
  {
    hide ValidProof, ProofAborts, LegalPath, Store;
    var c, v := ContextOf(rules, id, st.channels[id]), Load(st.channels[id]);
    FilingKeepsMeta(rules, st, id, proof, height, isDispute);
    assert GoodProof(c, v.reinit, proof);
    ValidDoesNotAbort(c, v.reinit, proof);
  }

  /** The rows of disputed channels are as the source CHECKs them. */
  lemma ExpirableRow<P>(rules: Rules<P>, channels: map<ChannelId, Row>, id: ChannelId)
    requires Expirable(rules, channels, id)
    ensures id in channels && |channels[id].meta.participants| == 2
    ensures var c := ContextOf(rules, id, channels[id]);
      var p := c.Parse(Load(channels[id]).LatestState());
      p.Some? && 0 <= c.env.whoseTurn(p.value) <= 1 && c.env.whoseTurn(p.value) == OnTurn(rules, channels, id)
  {
  }

  lemma OnlyTimedOut<P>(rules: Rules<P>, st: State, height: Unsigned, order: seq<ChannelId>)
    requires GoodTables(rules, st, height - DISPUTE_BLOCKS + 1, height - CHANNEL_TIMEOUT_BLOCKS, height)
    requires IsListing(order, TimedOutIds(st, height))
    ensures forall id :: id in order ==>
      id in st.extra && st.extra[id].participants == 1 && st.extra[id].createdHeight == height - CHANNEL_TIMEOUT_BLOCKS
  {
    hide GoodTables, TimedOutIds;
    forall id | id in order
      ensures id in st.extra && st.extra[id].participants == 1
      ensures st.extra[id].createdHeight == height - CHANNEL_TIMEOUT_BLOCKS
    {
      assert id in Elems(order);
      TimesOutExactlyThen(rules, st, height, height - DISPUTE_BLOCKS + 1, id);
      TablesAgree(rules, st, height, id);
    }
  }

  lemma TablesAgree<P>(rules: Rules<P>, st: State, height: nat, id: ChannelId)
    requires GoodTables(rules, st, height - DISPUTE_BLOCKS + 1, height - CHANNEL_TIMEOUT_BLOCKS, height)
    ensures id in st.channels <==> id in st.extra
  {
    assert id in st.channels <==> id in st.channels.Keys;
  }
}
