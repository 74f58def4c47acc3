/**
 * What each move does to the tables of the Battleships ledger (ships/logic.cpp), in terms of what
 * can be read from them: who may do what, who wins, and that nothing else changes.
 */
module LedgerEffects {
  import opened Wrappers
  import opened Channels
  import opened StateProofs
  import opened ChannelGames
  import opened ShipsLedger

  // ---- Channels that come and go without a game ----

  /** A new channel waits for a second player, from this height on. */
  lemma CreateEffect<P>(rules: Rules<P>, st: State, height: nat, mv: Move)
    requires InBlock(rules, st, height) && mv.action.Create? && FreshTxid(st, mv)
    ensures var t := ApplyAction(rules, st, height, mv);
      && t.channels.Keys == st.channels.Keys + {mv.txid}
      && (forall id :: id in st.channels ==> t.channels[id] == st.channels[id] && id in t.extra && t.extra[id] == st.extra[id])
      && var row := t.channels[mv.txid];
      && row.meta == Metadata([Participant(mv.name, mv.action.addr)], "") && row.disputeHeight == None
      && Load(row).LatestState() == "" && mv.txid in t.extra && t.extra[mv.txid] == Extra(height, 1)
      && t.stats == st.stats && t.log == st.log + [Created(mv.txid)]
  {
    hide InPlay, Waiting;
    assert st.channels.Keys == st.extra.Keys;
    forall id | id in st.channels ensures id in st.extra {
      assert id in st.channels.Keys;
    }
  }

  /** Somebody else than the creator joins as the second player, and the board is set up. */
  lemma JoinEffect<P>(rules: Rules<P>, st: State, height: nat, mv: Move, id: ChannelId)
    requires InBlock(rules, st, height) && mv.action.Join? && mv.action.id == id
    ensures var t := ApplyAction(rules, st, height, mv);
      if id in st.channels && |st.channels[id].meta.participants| == 1
         && st.channels[id].meta.participants[0].name != mv.name
      then
        && t.channels.Keys == st.channels.Keys
        && (forall j :: j in st.channels && j != id ==> t.channels[j] == st.channels[j])
        && var row, after := st.channels[id], t.channels[id];
        && after.meta == Metadata([row.meta.participants[0], Participant(mv.name, mv.action.addr)],
                                  rules.nextReinit(row.meta.reinit, mv.txid))
        && after.reinit == rules.initialBoard && Load(after).LatestState() == rules.initialBoard
        && after.disputeHeight == None && t.stats == st.stats && t.log == st.log
      else t == st
  {
    hide InPlay;
    if id in st.channels {
      assert id in st.channels.Keys;
      var row := st.channels[id];
      if |row.meta.participants| == 1 {
        assert row.meta.participants + [Participant(mv.name, mv.action.addr)]
            == [row.meta.participants[0], Participant(mv.name, mv.action.addr)];
        StillWaiting(rules, st, height, id);
      }
    }
  }

  lemma StillWaiting<P>(rules: Rules<P>, st: State, height: nat, id: ChannelId)
    requires InBlock(rules, st, height) && id in st.channels && |st.channels[id].meta.participants| == 1
    ensures Waiting(st.channels[id]) && id in st.extra
  {
    assert id in st.channels.Keys;
  }

  /** Only its creator aborts a waiting channel. */
  lemma AbortEffect<P>(rules: Rules<P>, st: State, height: nat, mv: Move, id: ChannelId)
    requires InBlock(rules, st, height) && mv.action == Abort(id)
    ensures var t := ApplyAction(rules, st, height, mv);
      if id in st.channels && |st.channels[id].meta.participants| == 1
         && st.channels[id].meta.participants[0].name == mv.name
      then
        && t.channels == st.channels - {id} && t.extra == st.extra - {id}
        && t.stats == st.stats && t.log == st.log + [Aborted(id)]
      else t == st
  {
  }

  // ---- Channels that are decided ----

  /** The channel is gone, and exactly one win and one loss are counted, for these players. */
  ghost predicate DecidedFor(st: State, t: State, id: ChannelId, winner: string, loser: string) {
    && t.channels == st.channels - {id} && t.extra == st.extra - {id}
    && t.log == st.log + [Closed(id, winner, loser)]
    && (forall n ::
          && Won(t.stats, n) == Won(st.stats, n) + (if n == winner then 1 else 0)
          && Lost(t.stats, n) == Lost(st.stats, n) + (if n == loser then 1 else 0))
    && winner in t.stats && loser in t.stats
  }

  lemma CloseDecides(st: State, id: ChannelId, winner: Player)
    requires id in st.channels && |st.channels[id].meta.participants| == 2
    ensures var ps := st.channels[id].meta.participants;
      DecidedFor(st, Close(st, id, winner), id, ps[winner].name, ps[1 - winner].name)
  {
  }

  /** The sender of the declaration is the loser; nobody else can make it. */
  lemma DeclareLossEffect<P>(rules: Rules<P>, st: State, height: nat, mv: Move, id: ChannelId, reinit: string)
    requires InBlock(rules, st, height) && mv.action == DeclareLoss(id, reinit)
    ensures var t := ApplyAction(rules, st, height, mv);
      if id in st.channels && |st.channels[id].meta.participants| == 2 && st.channels[id].meta.reinit == reinit then
        var ps := st.channels[id].meta.participants;
        && ps[0].name != ps[1].name
        && (mv.name == ps[0].name ==> DecidedFor(st, t, id, ps[1].name, ps[0].name))
        && (mv.name == ps[1].name ==> DecidedFor(st, t, id, ps[0].name, ps[1].name))
        && (mv.name != ps[0].name && mv.name != ps[1].name ==> t == st)
      else t == st
  {
    hide DecidedFor, Close, GoodTables, InPlay, Waiting;
    if id in st.channels && |st.channels[id].meta.participants| == 2 {
      PlayersDiffer(rules, st, height, id);
      CloseDecides(st, id, 0);
      CloseDecides(st, id, 1);
    }
  }

  lemma PlayersDiffer<P>(rules: Rules<P>, st: State, height: nat, id: ChannelId)
    requires InBlock(rules, st, height) && id in st.channels && |st.channels[id].meta.participants| == 2
    ensures st.channels[id].meta.participants[0].name != st.channels[id].meta.participants[1].name
  {
    TwoPlayersInPlay(rules, st, id, height - DISPUTE_BLOCKS, height - CHANNEL_TIMEOUT_BLOCKS, height);
  }

  /** A proof that a channel would take: good for its reinitialisation, and fresher than what it has. */
  ghost predicate Fresher<P>(rules: Rules<P>, st: State, id: ChannelId, proof: StateProof)
    requires id in st.channels
  {
    var row := st.channels[id];
    var c, e, s := Context(rules.env, id, row.meta), UnverifiedProofEndState(proof), Load(row).LatestState();
    && GoodProof(c, row.reinit, proof) && c.Parse(e).Some? && c.Parse(s).Some?
    && c.env.turnCount(c.Parse(e).value) > c.env.turnCount(c.Parse(s).value)
  }

  /** The winner that the proof's end state shows. */
  ghost function ShownWinner<P>(rules: Rules<P>, st: State, id: ChannelId, proof: StateProof): Option<Unsigned>
    requires id in st.channels
  {
    var p := Context(rules.env, id, st.channels[id].meta).Parse(UnverifiedProofEndState(proof));
    if p.Some? then rules.winner(p.value) else None
  }

  /** The channel goes on from the end state of the proof, or of what it had, disputed from then on or not at all. */
  ghost predicate GoesOn(st: State, t: State, id: ChannelId, latest: BoardState, disputed: Option<nat>)
    requires id in st.channels
  {
    && t.channels.Keys == st.channels.Keys && (forall j :: j in st.channels && j != id ==> t.channels[j] == st.channels[j])
    && t.channels[id].meta == st.channels[id].meta && t.channels[id].reinit == st.channels[id].reinit
    && Load(t.channels[id]).LatestState() == latest && t.channels[id].disputeHeight == disputed
    && t.extra == st.extra && t.stats == st.stats && t.log == st.log
  }

  /**
   * A resolution counts exactly if its proof is good and fresher. It ends any dispute, and if it shows
   * a winner, that player has won and the other has lost; it fails a CHECK if there is no such player.
   */
  lemma ResolutionEffect<P(!new)>(
      rules: Rules<P>, st: State, height: nat, mv: Move, id: ChannelId, proof: StateProof)
    requires GoodRules(rules) && height > 0 && InBlock(rules, st, height) && mv.action == FileResolution(id, proof)
    requires id in st.channels && |st.channels[id].meta.participants| == 2
    requires Fresher(rules, st, id, proof)
    ensures MoveFailsCheck(rules, st, height, mv) <==> ShownWinner(rules, st, id, proof).GetOr(0) > 1
    ensures var t, ps, w := ApplyAction(rules, st, height, mv), st.channels[id].meta.participants,
                            ShownWinner(rules, st, id, proof);
      && (w == Some(0) ==> DecidedFor(st, t, id, ps[0].name, ps[1].name))
      && (w == Some(1) ==> DecidedFor(st, t, id, ps[1].name, ps[0].name))
      && (w == None ==> GoesOn(st, t, id, UnverifiedProofEndState(proof), None))
  {
    hide GoodProof, FailsCheck, InPlay, Waiting, Context.Lawful, LawfulRules, UnverifiedProofEndState, Close, DecidedFor;
    var c, v := Context(rules.env, id, st.channels[id].meta), Load(st.channels[id]);
    TwoPlayersInPlay(rules, st, id, height - DISPUTE_BLOCKS, height - CHANNEL_TIMEOUT_BLOCKS, height);
    LoadFields(rules, id, st.channels[id]);
    GoodDoesNotFail(c, v.reinit, proof);
    var taken := v.(proof := proof, disputeHeight := None);
    TakenIs(taken);
    var stored := st.(channels := st.channels[id := Store(taken)]);
    DecidedAfterStoring(st, stored, id);
  }

  lemma DecidedAfterStoring(st: State, stored: State, id: ChannelId)
    requires id in st.channels && id in stored.channels && |st.channels[id].meta.participants| == 2
    requires stored.channels == st.channels[id := stored.channels[id]]
    requires stored.channels[id].meta == st.channels[id].meta && stored.extra == st.extra
    requires stored.stats == st.stats && stored.log == st.log
    ensures var ps := st.channels[id].meta.participants;
      && DecidedFor(st, Close(stored, id, 0), id, ps[0].name, ps[1].name)
      && DecidedFor(st, Close(stored, id, 1), id, ps[1].name, ps[0].name)
  {
    hide Close, Won, Lost;
    CloseDecides(stored, id, 0);
    CloseDecides(stored, id, 1);
    assert stored.channels - {id} == st.channels - {id};
  }

  /** Any other resolution changes nothing, unless verifying it fails a CHECK. */
  lemma ResolutionIgnored<P>(rules: Rules<P>, st: State, height: nat, mv: Move, id: ChannelId, proof: StateProof)
    requires InBlock(rules, st, height) && mv.action == FileResolution(id, proof)
    requires id in st.channels && |st.channels[id].meta.participants| == 2 ==> !Fresher(rules, st, id, proof)
    ensures ApplyAction(rules, st, height, mv) == st
    ensures MoveFailsCheck(rules, st, height, mv) <==>
      && id in st.channels && |st.channels[id].meta.participants| == 2
      && FailsCheck(Context(rules.env, id, st.channels[id].meta), proof)
  {
    hide GoodProof, FailsCheck, InPlay, Waiting, UnverifiedProofEndState, Close;
    if id in st.channels && |st.channels[id].meta.participants| == 2 {
      TwoPlayersInPlay(rules, st, id, height - DISPUTE_BLOCKS, height - CHANNEL_TIMEOUT_BLOCKS, height);
      LoadFields(rules, id, st.channels[id]);
    }
  }

  /** The proof ends in another encoding of the channel's state, which is not disputed yet. */
  ghost predicate Restates<P>(rules: Rules<P>, st: State, id: ChannelId, proof: StateProof)
    requires id in st.channels
  {
    var row := st.channels[id];
    var c, e, s := Context(rules.env, id, row.meta), UnverifiedProofEndState(proof), Load(row).LatestState();
    GoodProof(c, row.reinit, proof) && c.Equivalent(e, s) && row.disputeHeight == None
  }

  ghost predicate SomeoneOnTurn<P>(rules: Rules<P>, st: State, id: ChannelId, proof: StateProof)
    requires id in st.channels
  {
    var c := Context(rules.env, id, st.channels[id].meta);
    var p := c.Parse(UnverifiedProofEndState(proof));
    p.Some? && c.env.whoseTurn(p.value) != NO_TURN
  }

  /**
   * A dispute counts exactly if someone is on turn at the end of its proof, and that is fresher than the
   * channel's state, or the very same and not disputed yet. It is open from this block on.
   */
  lemma DisputeEffect<P(!new)>(
      rules: Rules<P>, st: State, height: nat, mv: Move, id: ChannelId, proof: StateProof)
    requires GoodRules(rules) && height > 0 && InBlock(rules, st, height) && mv.action == FileDispute(id, proof)
    requires id in st.channels && |st.channels[id].meta.participants| == 2
    ensures MoveFailsCheck(rules, st, height, mv) <==> FailsCheck(Context(rules.env, id, st.channels[id].meta), proof)
    ensures var t := ApplyAction(rules, st, height, mv);
      if !SomeoneOnTurn(rules, st, id, proof) then t == st
      else if Fresher(rules, st, id, proof) then GoesOn(st, t, id, UnverifiedProofEndState(proof), Some(height))
      else if Restates(rules, st, id, proof) then
        GoesOn(st, t, id, Load(st.channels[id]).LatestState(), Some(height))
      else t == st
  {
    hide GoodProof, FailsCheck, InPlay, Waiting, Context.Lawful, LawfulRules, UnverifiedProofEndState, Close;
    var c, v := Context(rules.env, id, st.channels[id].meta), Load(st.channels[id]);
    TwoPlayersInPlay(rules, st, id, height - DISPUTE_BLOCKS, height - CHANNEL_TIMEOUT_BLOCKS, height);
    LoadFields(rules, id, st.channels[id]);
    ContextIsLawful(rules, id, st.channels[id].meta);
    TakenIs(v.(proof := proof, disputeHeight := Some(height)));
    TakenIs(v.(disputeHeight := Some(height)));
    DisputeEnds(rules, c, v, proof);
  }

  /** What acceptance of a dispute comes to. */
  lemma DisputeEnds<P(!new)>(rules: Rules<P>, c: Context<P>, v: ChannelValue, proof: StateProof)
    requires GoodRules(rules) && c.env == rules.env && c.Lawful() && OnChainParses(c, v) && c.Size() == 2
    ensures var e := UnverifiedProofEndState(proof);
      && (c.Equivalent(e, v.LatestState()) ==> Count(c, e) == Count(c, v.LatestState()))
      && (c.Parse(e).Some? && c.env.whoseTurn(c.Parse(e).value) != NO_TURN ==> rules.winner(c.Parse(e).value).None?)
      && (c.Equivalent(e, v.LatestState()) && c.env.whoseTurn(c.Parse(e).value) != NO_TURN ==>
            rules.winner(c.Parse(v.LatestState()).value).None?)
      && (GoodProof(c, v.reinit, proof) ==> !FailsCheck(c, proof))
  {
    hide LawfulRules, Context.Lawful, ValidProof, ProofAborts;
    var e := UnverifiedProofEndState(proof);
    if c.Equivalent(e, v.LatestState()) {
      EquivalenceLaws(c, e, v.LatestState());
    }
    assert WinnerFitsTurn(rules, Context(rules.env, c.id, c.meta), e);
    assert WinnerFitsTurn(rules, Context(rules.env, c.id, c.meta), v.LatestState());
    if GoodProof(c, v.reinit, proof) {
      ValidDoesNotAbort(c, v.reinit, proof);
    }
  }

  lemma GoodDoesNotFail<P>(c: Context<P>, reinit: BoardState, proof: StateProof)
    requires GoodProof(c, reinit, proof)
    ensures !FailsCheck(c, proof)
  {
    hide ProofAborts, ValidProof;
    ValidDoesNotAbort(c, reinit, proof);
  }

  lemma TakenIs(v: ChannelValue)
    ensures Store(v).meta == v.meta && Store(v).reinit == v.reinit && Store(v).disputeHeight == v.disputeHeight
    ensures Load(Store(v)).LatestState() == v.LatestState()
  {
  }

  /** Proofs with parts that the channel's protocol version does not have are ignored. */
  lemma ForeignIsIgnored<P>(rules: Rules<P>, st: State, height: nat, mv: Move, id: ChannelId, proof: StateProof)
    requires InBlock(rules, st, height) && (mv.action == FileDispute(id, proof) || mv.action == FileResolution(id, proof))
    requires proof.initial.foreign || exists k :: 0 <= k < |proof.transitions| && proof.transitions[k].newState.foreign
    ensures ApplyAction(rules, st, height, mv) == st && !MoveFailsCheck(rules, st, height, mv)
  {
    hide InPlay, Waiting, ValidProof, ProofAborts, Close;
    if id in st.channels && |st.channels[id].meta.participants| == 2 {
      TwoPlayersInPlay(rules, st, id, height - DISPUTE_BLOCKS, height - CHANNEL_TIMEOUT_BLOCKS, height);
    }
  }

  // ---- Several moves ----

  /** The moves of a block are processed from the first to the last. */
  lemma {:induction false} MovesInOrder<P(!new)>(rules: Rules<P>, st: State, height: nat, mv: Move, moves: seq<Move>)
    requires GoodRules(rules) && height > 0 && InBlock(rules, st, height) && FreshMoves(st, [mv] + moves)
    ensures FreshTxid(st, mv) && InBlock(rules, ApplyAction(rules, st, height, mv), height)
    ensures FreshMoves(ApplyAction(rules, st, height, mv), moves)
    ensures ApplyMoves(rules, st, height, [mv] + moves)
         == ApplyMoves(rules, ApplyAction(rules, st, height, mv), height, moves)
    decreases |moves|
  {
    hide GoodRules, ApplyAction, InBlock;
    assert ([mv] + moves)[0] == mv;
    ActionInBlock(rules, st, height, mv);
    var t := ApplyAction(rules, st, height, mv);
    StillFresh(rules, st, height, mv, moves);
    if moves == [] {
      assert [mv] + moves == [mv] && [mv][..0] == [];
      assert ApplyMoves(rules, st, height, [mv]) == t by { OneMove(rules, st, height, mv); }
    } else {
      var m := |moves| - 1;
      assert ([mv] + moves)[..m + 1] == [mv] + moves[..m];
      MovesKeepFresh(rules, st, height, [mv] + moves);
      MovesInOrder(rules, st, height, mv, moves[..m]);
    }
  }

  lemma OneMove<P(!new)>(rules: Rules<P>, st: State, height: nat, mv: Move)
    requires GoodRules(rules) && height > 0 && InBlock(rules, st, height) && FreshMoves(st, [mv])
    ensures ApplyMoves(rules, st, height, [mv]) == ApplyAction(rules, st, height, mv)
  {
    hide GoodRules, ApplyAction, InBlock;
    assert [mv][..0] == [];
    assert ApplyMoves(rules, st, height, []) == st;
  }

  lemma StillFresh<P(!new)>(rules: Rules<P>, st: State, height: nat, mv: Move, moves: seq<Move>)
    requires GoodRules(rules) && height > 0 && InBlock(rules, st, height) && FreshMoves(st, [mv] + moves)
    ensures FreshTxid(st, mv) && FreshMoves(ApplyAction(rules, st, height, mv), moves)
  {
    hide GoodRules, ApplyAction, InBlock;
    var all := [mv] + moves;
    assert all[0] == mv && forall k :: 0 <= k < |moves| ==> all[k + 1] == moves[k];
    ActionInBlock(rules, st, height, mv);
    forall k | 0 <= k < |moves| ensures FreshTxid(ApplyAction(rules, st, height, mv), moves[k]) {
      assert FreshTxid(st, all[k + 1]);
    }
  }
}
